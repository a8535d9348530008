/**
  Input leases and recovery authority of one terminal (src/terminal.rs).  Times
  are clock readings in any order; fresh UUIDs are supplied by the caller.
 */
module InputLease {
  import opened Basics

  const MAX_CREDENTIAL_BYTES: nat := 128

  datatype Lease = Lease(id: string, token: string, lastSequence: nat, expiresAt: Option<nat>)
  {
    predicate Due(now: nat) { expiresAt.Some? && expiresAt.value <= now }
  }

  datatype Recovery = Recovery(client: string, token: string)

  datatype Grant = Grant(leaseId: string, token: string, generation: nat, ttl: Option<nat>)

  datatype Request = Request(readOnly: bool, takeover: bool, token: string, ttl: Option<nat>,
                             client: Option<string>)
  {
    predicate Resuming() { !takeover && token != "" }
  }

  predicate WellFormed(q: Request) {
    |q.token| <= MAX_CREDENTIAL_BYTES && (q.client.Some? ==> CanonicalUuid(q.client.value))
  }

  datatype Authority = Authority(lease: Option<Lease>, recovery: Option<Recovery>, generation: nat)
  {
    function Expired(now: nat): Authority {
      if lease.Some? && lease.value.Due(now) then this.(lease := None) else this
    }

    /** Who may resume: the recorded device with its token, or an old client whose lease is still live. */
    predicate Authorizes(q: Request) {
      match q.client
      case Some(id) => recovery == Some(Recovery(id, q.token))
      case None => recovery.None? && lease.Some? && lease.value.token == q.token
    }

    predicate Admits(q: Request) {
      if q.Resuming() then Authorizes(q) else q.takeover || (lease.None? && recovery.None?)
    }

    /** `None` is a refusal; an expired lease is dropped even then. */
    function Acquire(q: Request, now: nat, freshLease: string, freshToken: string): (Authority, Option<Grant>) {
      if !WellFormed(q) then (this, None)
      else if q.readOnly then (this, Some(Grant("", "", 0, None)))
      else
        var a := Expired(now);
        if !a.Admits(q) || (!q.Resuming() && a.generation >= MAX_U64) then (a, None) else
        var generation' := if q.Resuming() then a.generation else a.generation + 1;
        var token := if q.Resuming() then q.token else freshToken;
        (Authority(Some(Lease(freshLease, token, 0, if q.ttl.Some? then Some(now + q.ttl.value) else None)),
                   if q.client.Some? then Some(Recovery(q.client.value, token)) else None,
                   generation'),
         Some(Grant(freshLease, token, if q.client.Some? then generation' else 0, q.ttl)))
    }

    function ExpireIfDue(id: string, now: nat): Authority {
      if lease.Some? && lease.value.id == id then Expired(now) else this
    }

    /** The command may run: its lease is current and unexpired, its sequence number new. */
    predicate Accepts(id: string, sequence: nat, now: nat) {
      var a := ExpireIfDue(id, now);
      a.lease.Some? && a.lease.value.id == id && sequence > a.lease.value.lastSequence
    }

    function Executed(sequence: nat): Authority {
      if lease.Some? then this.(lease := Some(lease.value.(lastSequence := sequence))) else this
    }

    /** Input or resize: `succeeds` is the outcome of the PTY operation itself. */
    function Command(id: string, sequence: nat, now: nat, succeeds: bool): (Authority, bool) {
      var a := ExpireIfDue(id, now);
      if Accepts(id, sequence, now) && succeeds then (a.Executed(sequence), true) else (a, false)
    }

    function Renew(id: string, sequence: nat, ttl: nat, now: nat, later: nat): (Authority, bool) {
      var a := ExpireIfDue(id, now);
      if !Accepts(id, sequence, now) then (a, false)
      else (a.(lease := Some(a.lease.value.(expiresAt := Some(later + ttl), lastSequence := sequence))), true)
    }

    function ReleaseCommand(id: string, sequence: nat, now: nat): (Authority, bool) {
      var a := ExpireIfDue(id, now);
      if !Accepts(id, sequence, now) then (a, false) else (a.(lease := None, recovery := None), true)
    }

    /** End of the attachment's stream: the lease goes, the device's recovery record stays. */
    function Release(id: string): Authority {
      if id != "" && lease.Some? && lease.value.id == id then this.(lease := None) else this
    }
  }

  predicate ValidDimensions(rows: nat, cols: nat, width: nat, height: nat) {
    1 <= rows <= 1000 && 1 <= cols <= 1000 && (width == 0 <==> height == 0) && width <= 65535 && height <= 65535
  }

  /** The mutable part of a terminal that leases live in. */
  class Terminal {
    var lease: Option<Lease>
    var recovery: Option<Recovery>
    var recoveryGeneration: nat

    function Value(): Authority
      reads this
    {
      Authority(lease, recovery, recoveryGeneration)
    }

    constructor ()
      ensures Value() == Authority(None, None, 0)
    {
      lease, recovery, recoveryGeneration := None, None, 0;
    }

    method Acquire(q: Request, now: nat, freshLease: string, freshToken: string) returns (grant: Option<Grant>)
      modifies this
      ensures (Value(), grant) == old(Value()).Acquire(q, now, freshLease, freshToken)
    {
      if |q.token| > MAX_CREDENTIAL_BYTES { return None; }
      if q.client.Some? && !CanonicalUuid(q.client.value) { return None; }
      if q.readOnly { return Some(Grant("", "", 0, None)); }
      if lease.Some? && lease.value.Due(now) { lease := None; }
      var resuming := !q.takeover && q.token != "";
      if resuming {
        var authorized := match q.client
          case Some(id) => recovery.Some? && recovery.value.client == id && recovery.value.token == q.token
          case None => recovery.None? && lease.Some? && lease.value.token == q.token;
        if !authorized { return None; }
      } else if (lease.Some? || recovery.Some?) && !q.takeover {
        return None;
      }
      var token := q.token;
      if !resuming {
        if recoveryGeneration >= MAX_U64 { return None; }
        recoveryGeneration := recoveryGeneration + 1;
        token := freshToken;
      }
      recovery := if q.client.Some? then Some(Recovery(q.client.value, token)) else None;
      lease := Some(Lease(freshLease, token, 0, if q.ttl.Some? then Some(now + q.ttl.value) else None));
      grant := Some(Grant(freshLease, token, if q.client.Some? then recoveryGeneration else 0, q.ttl));
    }

    method ExpireIfDue(id: string, now: nat) returns (expired: bool)
      modifies this`lease
      ensures Value() == old(Value()).ExpireIfDue(id, now)
      ensures expired <==> old(lease.Some?) && lease.None?
    {
      expired := lease.Some? && lease.value.id == id && lease.value.Due(now);
      if expired { lease := None; }
    }

    method Validate(id: string, sequence: nat, now: nat) returns (ok: bool)
      modifies this`lease
      ensures Value() == old(Value()).ExpireIfDue(id, now)
      ensures ok == old(Value()).Accepts(id, sequence, now)
    {
      var _ := ExpireIfDue(id, now);
      ok := lease.Some? && lease.value.id == id && sequence > lease.value.lastSequence;
    }

    method WriteInput(id: string, sequence: nat, now: nat, succeeds: bool) returns (ok: bool)
      modifies this`lease
      ensures (Value(), ok) == old(Value()).Command(id, sequence, now, succeeds)
    {
      ok := Validate(id, sequence, now);
      ok := ok && succeeds;
      if ok { lease := Some(lease.value.(lastSequence := sequence)); }
    }

    method Resize(id: string, sequence: nat, rows: nat, cols: nat, width: nat, height: nat, now: nat, succeeds: bool)
      returns (ok: bool)
      modifies this`lease
      ensures if ValidDimensions(rows, cols, width, height)
              then (Value(), ok) == old(Value()).Command(id, sequence, now, succeeds)
              else !ok && Value() == old(Value())
    {
      if !ValidDimensions(rows, cols, width, height) { return false; }
      ok := WriteInput(id, sequence, now, succeeds);
    }

    method Renew(id: string, sequence: nat, ttl: nat, now: nat, later: nat) returns (ok: bool)
      modifies this`lease
      ensures (Value(), ok) == old(Value()).Renew(id, sequence, ttl, now, later)
    {
      ok := Validate(id, sequence, now);
      if ok { lease := Some(lease.value.(expiresAt := Some(later + ttl), lastSequence := sequence)); }
    }

    method ReleaseCommand(id: string, sequence: nat, now: nat) returns (ok: bool)
      modifies this
      ensures (Value(), ok) == old(Value()).ReleaseCommand(id, sequence, now)
    {
      ok := Validate(id, sequence, now);
      if ok { lease, recovery := None, None; }
    }

    method Release(id: string)
      modifies this`lease
      ensures Value() == old(Value()).Release(id)
    {
      if id != "" && lease.Some? && lease.value.id == id { lease := None; }
    }
  }

  // ---------------------------------------------------------------- runs

  datatype Event =
    | Attach(q: Request, freshLease: string, freshToken: string)
    | Input(id: string, sequence: nat, succeeds: bool)
    | Renewal(id: string, sequence: nat, ttl: nat, later: nat)
    | Released(id: string, sequence: nat)
    | TimerFires(id: string)
    | StreamEnds(id: string)

  /** A command that took effect, with the generation of the authority it ran under. */
  datatype Accepted = Accepted(id: string, sequence: nat, at: nat, generation: nat)

  /**
    A terminal with its history: lease IDs and tokens issued so far, the generation
    each was issued under, lease IDs that are no longer current, tokens that were
    superseded, released or lost with their lease, and the accepted commands.
   */
  datatype World = World(auth: Authority, leases: set<string>, tokens: map<string, nat>,
                         dead: set<string>, revoked: set<string>, accepted: seq<Accepted>)

  const START: World := World(Authority(None, None, 0), {}, map[], {}, {}, [])

  /** Tokens that some request could still use. */
  function LiveTokens(a: Authority): set<string> {
    (if a.recovery.Some? then {a.recovery.value.token} else {})
    + (if a.recovery.None? && a.lease.Some? then {a.lease.value.token} else {})
  }

  function CurrentLease(a: Authority): set<string> {
    if a.lease.Some? then {a.lease.value.id} else {}
  }

  /** UUIDs are never issued twice.  Nothing is assumed about the clock readings of events. */
  predicate Possible(w: World, e: Event) {
    match e
    case Attach(_, l, t) => l !in w.leases && t !in w.tokens && l != "" && t != ""
    case _ => true
  }

  function Effect(w: World, e: Event, now: nat): (Authority, seq<Accepted>) {
    match e
    case Attach(q, l, t) => (w.auth.Acquire(q, now, l, t).0, [])
    case Input(id, n, s) =>
      var (a, ok) := w.auth.Command(id, n, now, s);
      (a, if ok then [Accepted(id, n, now, w.auth.generation)] else [])
    case Renewal(id, n, ttl, later) =>
      var (a, ok) := w.auth.Renew(id, n, ttl, now, later);
      (a, if ok then [Accepted(id, n, now, w.auth.generation)] else [])
    case Released(id, n) =>
      var (a, ok) := w.auth.ReleaseCommand(id, n, now);
      (a, if ok then [Accepted(id, n, now, w.auth.generation)] else [])
    case TimerFires(id) => (w.auth.ExpireIfDue(id, now), [])
    case StreamEnds(id) => (w.auth.Release(id), [])
  }

  /** History keeps up with the authority by looking at it only. */
  function Next(w: World, e: Event, now: nat): World {
    var (a, done) := Effect(w, e, now);
    World(a,
          w.leases + CurrentLease(a),
          if a.lease.Some? && a.lease.value.token !in w.tokens
          then w.tokens[a.lease.value.token := a.generation] else w.tokens,
          w.dead + (CurrentLease(w.auth) - CurrentLease(a)),
          w.revoked + (LiveTokens(w.auth) - LiveTokens(a)),
          w.accepted + done)
  }

  datatype Timed = Timed(event: Event, at: nat)

  function After(w: World, es: seq<Timed>): Option<World> {
    if es == [] then Some(w) else
    match After(w, es[..|es| - 1])
    case None => None
    case Some(m) =>
      var e := es[|es| - 1];
      if Possible(m, e.event) then Some(Next(m, e.event, e.at)) else None
  }

  /** The ways an event can change the authority. */
  datatype Change =
    | Kept                     // same lease, maybe renewed or advanced
    | Dropped                  // lease expired or its stream ended
    | GivenUp                  // lease and recovery record released
    | Resumed(lease: string)   // new lease under the same token and generation
    | Granted(lease: string, token: string)  // new lease, token and generation

  predicate Changes(a: Authority, a': Authority, c: Change) {
    match c
    case Kept =>
      && a'.recovery == a.recovery && a'.generation == a.generation && (a'.lease.Some? <==> a.lease.Some?)
      && (a.lease.Some? ==> && a'.lease.value.id == a.lease.value.id && a'.lease.value.token == a.lease.value.token
                            && a.lease.value.lastSequence <= a'.lease.value.lastSequence)
    case Dropped => a' == a.(lease := None)
    case GivenUp => a' == a.(lease := None, recovery := None)
    case Resumed(l) =>
      && a'.recovery == a.recovery && a'.generation == a.generation
      && a'.lease.Some? && a'.lease.value.id == l && a'.lease.value.lastSequence == 0
      && LiveTokens(a) == {a'.lease.value.token}
    case Granted(l, t) =>
      && a'.generation == a.generation + 1
      && a'.lease.Some? && a'.lease.value.id == l && a'.lease.value.token == t && a'.lease.value.lastSequence == 0
      && (a'.recovery.Some? ==> a'.recovery.value.token == t)
  }

  /** Which change an event makes, and that what it accepted ran under the current lease. */
  lemma EventChanges(w: World, e: Event, now: nat) returns (c: Change)
    requires Possible(w, e)
    ensures var (a', done) := Effect(w, e, now);
            && Changes(w.auth, a', c)
            && (c.Resumed? || c.Granted? ==> e.Attach? && c.lease == e.freshLease)
            && (c.Granted? ==> c.token == e.freshToken)
            && |done| <= 1
            && (done != [] ==>
                  && w.auth.lease.Some? && !w.auth.lease.value.Due(now)
                  && done[0].id == w.auth.lease.value.id && done[0].at == now
                  && done[0].generation == w.auth.generation
                  && w.auth.lease.value.lastSequence < done[0].sequence
                  && !e.Attach? && (a'.lease.Some? ==> a'.lease.value.lastSequence == done[0].sequence))
  {
    var a, a' := w.auth, Effect(w, e, now).0;
    if e.Attach? && !e.q.readOnly && a.Acquire(e.q, now, e.freshLease, e.freshToken).1.Some? {
      c := if e.q.Resuming() then Resumed(e.freshLease) else Granted(e.freshLease, e.freshToken);
    } else if a' == a.(lease := None) {
      c := Dropped;
    } else if a' == a.(lease := None, recovery := None) {
      c := GivenUp;
    } else {
      c := Kept;
    }
  }

  /** The part of the invariant that ties the authority to what was issued. */
  predicate IssuedOk(a: Authority, leases: set<string>, tokens: map<string, nat>, dead: set<string>,
      revoked: set<string>) {
    && (a.lease.Some? ==>
          && a.lease.value.id in leases && a.lease.value.id != "" && a.lease.value.id !in dead
          && a.lease.value.token in tokens && a.lease.value.token !in revoked
          && tokens[a.lease.value.token] == a.generation
          && (a.recovery.Some? ==> a.recovery.value.token == a.lease.value.token))
    && (a.recovery.Some? ==>
          && a.recovery.value.token in tokens && a.recovery.value.token !in revoked && a.recovery.value.token != ""
          && tokens[a.recovery.value.token] == a.generation)
    && leases == dead + CurrentLease(a) && tokens.Keys == revoked + LiveTokens(a)
    && (forall t :: t in tokens ==> tokens[t] <= a.generation)
  }

  /** Accepted commands name issued leases, in strictly ascending sequence per lease. */
  predicate LogOk(a: Authority, leases: set<string>, log: seq<Accepted>) {
    && (forall i :: 0 <= i < |log| ==>
          && log[i].id in leases
          && (a.lease.Some? && log[i].id == a.lease.value.id ==> log[i].sequence <= a.lease.value.lastSequence))
    && (forall i, k :: 0 <= i < k < |log| && log[i].id == log[k].id ==> log[i].sequence < log[k].sequence)
  }

  predicate Inv(w: World) {
    IssuedOk(w.auth, w.leases, w.tokens, w.dead, w.revoked) && LogOk(w.auth, w.leases, w.accepted)
  }

  lemma NextOk(w: World, e: Event, now: nat)
    requires Inv(w) && Possible(w, e)
    ensures Inv(Next(w, e, now))
  {
    hide Effect;
    var c := EventChanges(w, e, now);
    IssuedKept(w, e, now, c);
    LogKept(w, e, now, c);
  }

  lemma IssuedKept(w: World, e: Event, now: nat, c: Change)
    requires Inv(w) && Possible(w, e) && Changes(w.auth, Effect(w, e, now).0, c)
    requires c.Resumed? || c.Granted? ==> e.Attach? && c.lease == e.freshLease
    requires c.Granted? ==> c.token == e.freshToken
    ensures var n := Next(w, e, now); IssuedOk(n.auth, n.leases, n.tokens, n.dead, n.revoked)
  {
    hide Effect;
  }

  lemma LogKept(w: World, e: Event, now: nat, c: Change)
    requires Inv(w) && Possible(w, e) && Changes(w.auth, Effect(w, e, now).0, c)
    requires c.Resumed? || c.Granted? ==> e.Attach? && c.lease == e.freshLease
    requires var done := Effect(w, e, now).1;
             && |done| <= 1
             && (done != [] ==>
                   && w.auth.lease.Some? && done[0].id == w.auth.lease.value.id
                   && w.auth.lease.value.lastSequence < done[0].sequence && !e.Attach?
                   && (Effect(w, e, now).0.lease.Some? ==>
                         Effect(w, e, now).0.lease.value.lastSequence == done[0].sequence))
    ensures var n := Next(w, e, now); LogOk(n.auth, n.leases, n.accepted)
  {
    hide Effect;
  }

  lemma {:induction false} RunOk(es: seq<Timed>, w: World)
    requires After(START, es) == Some(w)
    ensures Inv(w)
  {
    hide Next, Inv;
    if es == [] {
      StartOk();
    } else {
      var m := After(START, es[..|es| - 1]).value;
      RunOk(es[..|es| - 1], m);
      NextOk(m, es[|es| - 1].event, es[|es| - 1].at);
    }
  }

  lemma StartOk()
    ensures Inv(START)
  {
  }

  /** Lease IDs once dead stay dead; tokens once revoked stay revoked; the generation never falls. */
  lemma {:induction false} HistoryGrows(w: World, es: seq<Timed>, w': World)
    requires After(w, es) == Some(w')
    ensures w.dead <= w'.dead && w.revoked <= w'.revoked && w.auth.generation <= w'.auth.generation
    ensures |w.accepted| <= |w'.accepted| && w'.accepted[..|w.accepted|] == w.accepted
  {
    if es != [] {
      var m := After(w, es[..|es| - 1]).value;
      HistoryGrows(w, es[..|es| - 1], m);
      GenerationGrows(m, es[|es| - 1].event, es[|es| - 1].at);
    }
  }

  lemma GenerationGrows(w: World, e: Event, now: nat)
    requires Possible(w, e)
    ensures w.auth.generation <= Next(w, e, now).auth.generation
  {
    hide Effect;
    var c := EventChanges(w, e, now);
  }

  // ---------------------------------------------------------------- fencing

  /** A command takes effect only under the current, unexpired lease and with a new sequence number. */
  lemma AcceptedUnderCurrentLease(w: World, e: Event, now: nat)
    requires Possible(w, e)
    ensures forall c :: c in Effect(w, e, now).1 ==>
              && w.auth.lease.Some? && c.id == w.auth.lease.value.id
              && !w.auth.lease.value.Due(now) && c.sequence > w.auth.lease.value.lastSequence
  {
    hide Effect, Changes;
    var _ := EventChanges(w, e, now);
  }

  /**
    Over every run: sequence numbers accepted under one lease strictly ascend, and
    every lease ever issued is either the current one or dead.
   */
  lemma LeaseFencing(es: seq<Timed>, w: World)
    requires After(START, es) == Some(w)
    ensures forall i, k :: 0 <= i < k < |w.accepted| && w.accepted[i].id == w.accepted[k].id ==>
              w.accepted[i].sequence < w.accepted[k].sequence
    ensures w.leases == w.dead + CurrentLease(w.auth) && w.dead !! CurrentLease(w.auth)
  {
    RunOk(es, w);
  }

  lemma {:induction false} RunsCompose(w: World, a: seq<Timed>, b: seq<Timed>)
    requires After(w, a).Some?
    ensures After(w, a + b) == After(After(w, a).value, b)
  {
    hide Next, Possible;
    if b == [] {
      assert a + b == a;
    } else {
      RunsCompose(w, a, b[..|b| - 1]);
      assert (a + b)[..|a + b| - 1] == a + b[..|b| - 1];
    }
  }

  lemma RunContinuesOk(es: seq<Timed>, w: World, es': seq<Timed>, w': World)
    requires After(START, es) == Some(w) && After(w, es') == Some(w')
    ensures Inv(w')
  {
    hide After, Inv;
    RunsCompose(START, es, es');
    RunOk(es + es', w');
  }

  /** Once a lease has been replaced, expired or released, nothing is ever accepted under its ID again. */
  lemma {:induction false} DeadLeaseStaysDead(es: seq<Timed>, w: World, es': seq<Timed>, w': World, id: string)
    requires After(START, es) == Some(w) && After(w, es') == Some(w') && id in w.dead
    ensures |w.accepted| <= |w'.accepted|
    ensures forall i :: |w.accepted| <= i < |w'.accepted| ==> w'.accepted[i].id != id
  {
    hide Effect, Possible;
    if es' != [] {
      var n := |es'| - 1;
      var m := After(w, es'[..n]).value;
      DeadLeaseStaysDead(es, w, es'[..n], m, id);
      RunContinuesOk(es, w, es'[..n], m);
      HistoryGrows(w, es'[..n], m);
      AcceptedUnderCurrentLease(m, es'[n].event, es'[n].at);
      var done := Effect(m, es'[n].event, es'[n].at).1;
      forall i | |m.accepted| <= i < |w'.accepted| ensures w'.accepted[i].id != id {
        assert w'.accepted[i] == done[i - |m.accepted|];
        assert done[i - |m.accepted|] in done;
      }
    }
  }

  // ---------------------------------------------------------------- recovery authority

  /** A grant resumes under the same token and generation, or starts a strictly newer authority. */
  lemma GrantsRaiseGeneration(es: seq<Timed>, w: World, q: Request, now: nat, l: string, t: string)
    requires After(START, es) == Some(w) && Possible(w, Attach(q, l, t))
    requires w.auth.Acquire(q, now, l, t).1.Some? && !q.readOnly
    ensures var (a', g) := w.auth.Acquire(q, now, l, t);
            if q.Resuming()
            then g.value.token == q.token && a'.generation == w.auth.generation && q.token in w.tokens
                 && w.tokens[q.token] == w.auth.generation
            else g.value.token == t && t !in w.tokens && forall x :: x in w.tokens ==> w.tokens[x] < a'.generation
  {
    RunOk(es, w);
  }

  /** Without a token and without takeover, a grant needs a terminal that nobody owns. */
  lemma FreshGrantNeedsNoOwner(a: Authority, q: Request, now: nat, l: string, t: string)
    requires a.Acquire(q, now, l, t).1.Some? && !q.readOnly && !q.takeover && q.token == ""
    ensures a.recovery.None? && (a.lease.None? || a.lease.value.Due(now))
  {
  }

  /** A token that was superseded, released or lost with its lease never authorises again. */
  lemma RevokedNeverAuthorizes(es: seq<Timed>, w: World, es': seq<Timed>, w': World, q: Request, now: nat,
                               l: string, t: string)
    requires After(START, es) == Some(w) && After(w, es') == Some(w')
    requires q.token in w.revoked && q.Resuming() && !q.readOnly
    ensures w'.auth.Acquire(q, now, l, t).1.None?
  {
    HistoryGrows(w, es', w');
    RunContinuesOk(es, w, es', w');
  }

  /** Every issued token is live or revoked, so a new authority revokes all earlier tokens. */
  lemma TokensLiveOrRevoked(es: seq<Timed>, w: World)
    requires After(START, es) == Some(w)
    ensures w.tokens.Keys == w.revoked + LiveTokens(w.auth) && w.revoked !! LiveTokens(w.auth)
    ensures |LiveTokens(w.auth)| <= 1
  {
    RunOk(es, w);
  }

  /** What ends a recorded device's authority: an accepted takeover or an accepted explicit release. */
  predicate Evicts(a: Authority, e: Event, now: nat) {
    match e
    case Attach(q, _, _) => WellFormed(q) && !q.readOnly && q.takeover && a.generation < MAX_U64
    case Released(id, n) => a.Accepts(id, n, now)
    case _ => false
  }

  predicate NoEviction(w: World, es: seq<Timed>) {
    es == [] ||
    var n := |es| - 1;
    && NoEviction(w, es[..n])
    && (After(w, es[..n]).Some? ==> !Evicts(After(w, es[..n]).value.auth, es[n].event, es[n].at))
  }

  /** Record and generation of a device survive an event if and only if the event does not evict the device. */
  lemma RecordSurvives(w: World, e: Event, now: nat)
    requires w.auth.recovery.Some?
    ensures var a := Effect(w, e, now).0;
            a.recovery == w.auth.recovery && a.generation == w.auth.generation <==> !Evicts(w.auth, e, now)
  {
  }

  /**
    Expiry, end of stream, commands, and attaches of any other client that do not take over keep the
    device's record: read-only ones, fresh ones and resumes with a wrong or stale token alike.
   */
  lemma {:induction false} RecoveryPreserved(w: World, es: seq<Timed>, w': World)
    requires After(w, es) == Some(w') && w.auth.recovery.Some? && NoEviction(w, es)
    ensures w'.auth.recovery == w.auth.recovery && w'.auth.generation == w.auth.generation
  {
    hide Effect, Evicts;
    if es != [] {
      var m := After(w, es[..|es| - 1]).value;
      RecoveryPreserved(w, es[..|es| - 1], m);
      RecordSurvives(m, es[|es| - 1].event, es[|es| - 1].at);
    }
  }

  /** Unless it is evicted, a recorded device can always come back under its token and generation. */
  lemma DeviceComesBack(w: World, es: seq<Timed>, w': World, q: Request, now: nat, l: string, t: string)
    requires After(w, es) == Some(w') && NoEviction(w, es)
    requires w.auth.recovery.Some? && WellFormed(q) && !q.readOnly && q.Resuming()
    requires q.client == Some(w.auth.recovery.value.client) && q.token == w.auth.recovery.value.token
    ensures var (a', g) := w'.auth.Acquire(q, now, l, t);
            g == Some(Grant(l, q.token, w.auth.generation, q.ttl)) && a'.recovery == w.auth.recovery
  {
    RecoveryPreserved(w, es, w');
  }

  // ---------------------------------------------------------------- attachment fence

  datatype CommandKind = ControlsInput | OtherCommand

  /** `validate_terminal_command_target`. */
  predicate TargetOk(commandTerminal: string, commandAttachment: string, commandLease: string, kind: CommandKind,
                     terminal: string, attachment: string, sessionObjects: bool, attachmentLease: string) {
    && commandTerminal == terminal
    && (sessionObjects ==> commandAttachment == attachment)
    && (kind == ControlsInput ==> attachmentLease != "" && commandLease == attachmentLease)
  }

  /**
    An attachment whose own lease is dead, or that never had one, can no longer get an
    input, resize, renew or release accepted, whatever lease ID it writes into its commands.
   */
  lemma FencedAttachment(es: seq<Timed>, w: World, es': seq<Timed>, w': World, attachmentLease: string,
                         terminal: string, attachment: string, commandAttachment: string, commandLease: string,
                         sessionObjects: bool, sequence: nat, now: nat)
    requires After(START, es) == Some(w) && After(w, es') == Some(w')
    requires attachmentLease == "" || attachmentLease in w.dead
    requires TargetOk(terminal, commandAttachment, commandLease, ControlsInput, terminal, attachment,
                      sessionObjects, attachmentLease)
    ensures !w'.auth.Accepts(commandLease, sequence, now)
  {
    HistoryGrows(w, es', w');
    RunContinuesOk(es, w, es', w');
  }
}
