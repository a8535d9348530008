/**
  Whole runs of server, client and network.  The datagram network may lose,
  duplicate and reorder (section 5.2 of RFC 9221); the two directions of the
  attachment stream are reliable and first-in first-out.
 */
module StreamProtocol {
  import opened Basics
  import opened TerminalState
  import opened ViewportDiff
  import opened StreamEndpoints
  import opened StreamWindowInvariants
  import opened StreamReplicaInvariants

  datatype Control = StateAck(ack: Ack) | StateRepair(request: RepairRequest)
  {
    function Epoch(): Epoch {
      match this
      case StateAck(a) => a.epoch
      case StateRepair(r) => r.epoch
    }
  }

  /**
    `down` carries keyframes to the client, `up` control messages to the server.
    `net` holds every datagram ever sent; its values, like `supplied`, `newest`,
    `log`, `keyframes`, `acks` and `crowd`, only record history and steer nothing.
   */
  datatype Joint = Joint(win: Window, rep: Replica, box: Mailbox,
                         down: seq<State>, up: seq<Control>, net: map<Datagram, Packet>,
                         supplied: Supply, newest: State,
                         log: seq<State>, keyframes: seq<State>, acks: set<Ack>, crowd: set<nat>,
                         exited: bool, serverError: bool, clientError: bool)

  datatype Event =
    | Output(state: State, fits: bool)   // the engine's newest viewport is sampled
    | Retry(fits: bool)                  // quiet-tail timer
    | Rekey                              // reliable re-key timer
    | ServerReceives                     // the next control message
    | Exit(state: State)                 // the process ends: final frame, then no more updates
    | ClientReceives                     // the next keyframe
    | NetworkDelivers(datagram: Datagram)
    | ClientTakes                        // the mailbox slot is read

  /** The engine re-exports its newest state, a later generation of it, or a fresh epoch. */
  predicate EngineMay(j: Joint, s: State) {
    && ValidViewport(s)
    && (s == j.newest || Before(Id(j.newest), Id(s)))
  }

  function Supplied(j: Joint, s: State): Joint {
    j.(supplied := j.supplied[Id(s) := s], newest := s)
  }

  /** Carry out what a window operation returned. */
  function Send(j: Joint, r: Outcome<(Window, Option<Update>)>): Joint {
    match r
    case Err => j.(serverError := true)
    case Ok((w, None)) => j.(win := w)
    case Ok((w, Some(Keyframe(k)))) =>
      j.(win := w, down := j.down + [k], keyframes := j.keyframes + [k], crowd := {})
    case Ok((w, Some(Delta(d)))) =>
      j.(win := w, net := j.net[d := Packet(w.base, Goal(w), j.crowd)])
  }

  function ClientAcks(j: Joint): Joint {
    if j.rep.current.None? then j.(clientError := true)
    else j.(up := j.up + [StateAck(Id(j.rep.current.value))])
  }

  function Crowd(j: Joint, w: Window, advanced: bool): set<nat> {
    if advanced then w.sent.Keys - {w.base.generation} else j.crowd
  }

  function ReceiveControl(j: Joint, c: Control): Joint {
    match c
    case StateAck(a) => (
      match j.win.Acknowledge(a)
      case Err => j.(serverError := true)
      case Ok((w, advanced)) => j.(win := w, acks := j.acks + {a}, crowd := Crowd(j, w, advanced)))
    case StateRepair(r) => Send(j, j.win.Repair(r))
  }

  function ReceiveKeyframe(j: Joint, s: State): Joint {
    var out := j.rep.ApplyKeyframe(s);
    if out.Err? then j.(clientError := true) else
    var (r, disposition) := out.value;
    if disposition == Applied
    then ClientAcks(j.(rep := r, box := j.box.CommitKeyframe(s), log := j.log + [s]))
    else ClientAcks(j.(rep := r))
  }

  function ReceiveDatagram(j: Joint, d: Datagram): Joint {
    match j.rep.ApplyDatagram(d)
    case Err => j.(clientError := true)
    case Ok((r, Applied)) =>
      if r.current.None? then j.(clientError := true)
      else ClientAcks(j.(rep := r, log := j.log + [r.current.value]))
    case Ok((r, Stale)) => j.(rep := r)
    case Ok((r, MissingBase)) => j.(rep := r, up := j.up + [StateRepair(j.rep.RepairFor(d))])
  }

  predicate ServerRuns(j: Joint) { !j.exited && !j.serverError }

  predicate Enabled(j: Joint, e: Event) {
    match e
    case Output(s, _) => ServerRuns(j) && EngineMay(j, s)
    case Retry(_) => ServerRuns(j)
    case Rekey => ServerRuns(j)
    case ServerReceives => ServerRuns(j) && j.up != []
    case Exit(s) => ServerRuns(j) && EngineMay(j, s)
    case ClientReceives => !j.clientError && j.down != []
    case NetworkDelivers(d) => !j.clientError && d in j.net
    case ClientTakes => !j.clientError && j.box.slot.Some?
  }

  function Next(j: Joint, e: Event): Joint
    requires Enabled(j, e)
  {
    match e
    case Output(s, fits) => Send(Supplied(j, s), j.win.PrepareUpdate(s, fits))
    case Retry(fits) => Send(j, j.win.RetryLatest(fits))
    case Rekey => Send(j, j.win.RekeyLatest())
    case ServerReceives => ReceiveControl(j.(up := j.up[1..]), j.up[0])
    case Exit(s) => Supplied(j, s).(down := j.down + [s], exited := true)
    case ClientReceives => ReceiveKeyframe(j.(down := j.down[1..]), j.down[0])
    case NetworkDelivers(d) => j.(box := j.box.Deliver(d))
    case ClientTakes => ReceiveDatagram(j.(box := j.box.Take()), j.box.slot.value)
  }

  /** The state after a run; `None` if some event was not possible when its turn came. */
  function After(j: Joint, es: seq<Event>): Option<Joint> {
    if es == [] then Some(j) else
    match After(j, es[..|es| - 1])
    case None => None
    case Some(m) => if Enabled(m, es[|es| - 1]) then Some(Next(m, es[|es| - 1])) else None
  }

  /** Attach: the initial state is already on the reliable stream when the window is created. */
  function Attached(route: Route, initial: State): Joint
    requires NewWindow(route, initial, RETAINED_GENERATIONS).Ok?
  {
    Joint(NewWindow(route, initial, RETAINED_GENERATIONS).value, NewReplica(route, RETAINED_GENERATIONS),
          Mailbox(None, 0, None), [initial], [], map[], map[Id(initial) := initial], initial,
          [], [initial], {}, {}, false, false, false)
  }

  // ---------------------------------------------------------------- invariant

  predicate Logged(log: seq<State>, a: Ack) { exists i :: 0 <= i < |log| && Id(log[i]) == a }

  /** Commits are known states in strictly ascending order; the last one is current. */
  predicate LogOk(log: seq<State>, current: Option<State>, sup: Supply) {
    && (forall i :: 0 <= i < |log| ==> Known(sup, log[i]))
    && (forall i, k :: 0 <= i < k < |log| ==> Before(Id(log[i]), Id(log[k])))
    && (if log == [] then current.None? else current == Some(log[|log| - 1]))
  }

  predicate SupplyNewest(sup: Supply, newest: State) {
    && SupplyOk(sup) && Known(sup, newest)
    && (forall k :: k in sup ==> AtMost(k, Id(newest)))
  }

  /** The base's epoch, or the one just retired while its successor is unacknowledged. */
  predicate Recent(w: Window, e: Epoch) {
    e == w.base.epoch || (!w.acked && w.retired != [] && e == w.retired[|w.retired| - 1])
  }

  /** What may still be under way while the server runs: nothing above the bound. */
  predicate Timely(j: Joint, a: Ack) {
    !j.exited ==> AtMost(a, Bound(j.win)) && Recent(j.win, a.epoch)
  }

  /** Keyframes on the stream: known, epochs in order and never behind the client. */
  predicate DownOk(j: Joint) {
    && (forall i :: 0 <= i < |j.down| ==>
          && Known(j.supplied, j.down[i]) && Timely(j, Id(j.down[i]))
          && (j.rep.current.Some? ==> j.rep.current.value.epoch <= j.down[i].epoch))
    && (forall i, k :: 0 <= i < k < |j.down| ==> j.down[i].epoch <= j.down[k].epoch)
  }

  predicate PacketOk(j: Joint, d: Datagram, p: Packet) {
    && Carries(j.win.route, d, p) && Known(j.supplied, p.base) && Known(j.supplied, p.target)
    && (!j.exited ==> AtMost(Id(p.target), Bound(j.win)) && AtMost(Id(p.base), Id(j.win.base)))
    && Logged(j.log, Id(p.base))
  }

  predicate NetOk(j: Joint) {
    forall d :: d in j.net ==> PacketOk(j, d, j.net[d])
  }

  predicate BoxOk(box: Mailbox, current: Option<State>, net: map<Datagram, Packet>) {
    && (if current.None? then box.epoch.None? else box.epoch == Some(current.value.epoch))
    && (box.slot.Some? ==> box.slot.value in net && box.epoch == Some(box.slot.value.diff.epoch))
  }

  /** A control message the server will understand. */
  predicate ControlOk(j: Joint, c: Control) {
    && j.rep.current.Some? && c.Epoch() <= j.rep.current.value.epoch
    && match c
       case StateAck(a) => a.generation > 0 && Logged(j.log, a) && Timely(j, a)
       case StateRepair(r) =>
         && 0 < r.missingBase <= r.newestSeen
         && (!j.exited ==> Recent(j.win, r.epoch) && AtMost(Ack(r.epoch, r.missingBase), Id(j.win.base)))
  }

  predicate UpOk(j: Joint) {
    && (forall i :: 0 <= i < |j.up| ==> ControlOk(j, j.up[i]))
    && (forall i, k :: 0 <= i < k < |j.up| ==> j.up[i].Epoch() <= j.up[k].Epoch())
  }

  /** An acknowledged base is committed; an unacknowledged one is on its way there or back. */
  predicate GateOk(j: Joint) {
    && (j.rep.current.Some? ==> Timely(j, Id(j.rep.current.value)))
    && (j.win.acked ==> Logged(j.log, Id(j.win.base)) && j.rep.current.Some?)
    && (!j.win.acked && !j.exited ==> j.win.base in j.down || StateAck(Id(j.win.base)) in j.up)
  }

  /** Every keyframe but the last has been acknowledged, and that one too unless the window is waiting. */
  predicate KeyframesOk(keyframes: seq<State>, acks: set<Ack>, w: Window) {
    && keyframes != []
    && (forall i :: 0 <= i < |keyframes| - 1 ==> Id(keyframes[i]) in acks)
    && (w.acked ==> Id(keyframes[|keyframes| - 1]) in acks)
    && (!w.acked ==> keyframes[|keyframes| - 1] == w.base)
  }

  /** Everything but the sender's goal. */
  predicate Core(j: Joint) {
    && !j.clientError
    && j.rep.route == j.win.route
    && WindowOk(j.win, j.supplied) && ReplicaOk(j.rep, j.supplied)
    && SupplyNewest(j.supplied, j.newest) && LogOk(j.log, j.rep.current, j.supplied) && DownOk(j) && NetOk(j)
    && BoxOk(j.box, j.rep.current, j.net) && UpOk(j) && GateOk(j) && KeyframesOk(j.keyframes, j.acks, j.win)
  }

  predicate Inv(j: Joint) {
    Core(j) && (!j.exited ==> Goal(j.win) == j.newest)
  }

  lemma AttachedOk(route: Route, initial: State)
    requires NewWindow(route, initial, RETAINED_GENERATIONS).Ok?
    ensures Inv(Attached(route, initial))
  {
    hide ValidViewport;
    var j := Attached(route, initial);
    PositiveGeneration(initial);
    assert j.down[0] == initial;
  }

  lemma PositiveGeneration(s: State)
    requires ValidViewport(s)
    ensures s.generation > 0
  {
  }

  // ---------------------------------------------------------------- server steps

  /** More supply keeps what held with less. */
  predicate Extends(sup: Supply, sup': Supply) {
    forall k :: k in sup ==> k in sup' && sup'[k] == sup[k]
  }

  lemma ExtendEndpoints(w: Window, r: Replica, sup: Supply, sup': Supply)
    requires Extends(sup, sup') && WindowOk(w, sup) && ReplicaOk(r, sup)
    ensures WindowOk(w, sup') && ReplicaOk(r, sup')
  {
  }

  lemma ExtendChannels(j: Joint, j': Joint)
    requires Extends(j.supplied, j'.supplied) && j' == j.(supplied := j'.supplied, newest := j'.newest)
    requires LogOk(j.log, j.rep.current, j.supplied) && DownOk(j) && NetOk(j)
        && BoxOk(j.box, j.rep.current, j.net) && UpOk(j) && GateOk(j) && KeyframesOk(j.keyframes, j.acks, j.win)
    ensures LogOk(j'.log, j'.rep.current, j'.supplied) && DownOk(j') && NetOk(j')
        && BoxOk(j'.box, j'.rep.current, j'.net) && UpOk(j') && GateOk(j') && KeyframesOk(j'.keyframes, j'.acks, j'.win)
  {
    hide Carries;
    forall d | d in j'.net ensures PacketOk(j', d, j'.net[d]) {
      assert PacketOk(j, d, j.net[d]);
    }
    forall i | 0 <= i < |j'.up| ensures ControlOk(j', j'.up[i]) {
      assert ControlOk(j, j.up[i]);
    }
  }

  /** A fresh or repeated export leaves every recorded state where it was. */
  lemma SuppliedOk(j: Joint, s: State)
    requires Core(j) && EngineMay(j, s)
    ensures Core(Supplied(j, s)) && Known(Supplied(j, s).supplied, s)
    ensures Extends(j.supplied, Supplied(j, s).supplied)
  {
    hide ValidViewport, WindowOk, ReplicaOk, LogOk, DownOk, NetOk, BoxOk, UpOk, GateOk, KeyframesOk;
    PositiveGeneration(s);
    var j' := Supplied(j, s);
    assert s != j.newest ==> Id(s) !in j.supplied;
    ExtendEndpoints(j.win, j.rep, j.supplied, j'.supplied);
    ExtendChannels(j, j');
  }

  /** The window moves forward within its epoch. */
  predicate Advances(w: Window, w': Window) {
    && w'.route == w.route && w'.retired == w.retired && w'.base.epoch == w.base.epoch
    && w.base.generation <= w'.base.generation && High(w) <= High(w') && (w.acked ==> w'.acked)
  }

  /** Nothing under way or committed belongs to an older epoch than the base. */
  predicate OneEpoch(j: Joint) {
    && (forall i :: 0 <= i < |j.down| ==> j.down[i].epoch == j.win.base.epoch)
    && (forall i :: 0 <= i < |j.up| ==> j.up[i].Epoch() == j.win.base.epoch)
    && (j.rep.current.Some? ==> j.rep.current.value.epoch == j.win.base.epoch)
  }

  lemma AdvanceKeeps(j: Joint, w': Window)
    requires DownOk(j) && NetOk(j) && UpOk(j) && !j.exited
    requires j.rep.current.Some? ==> Timely(j, Id(j.rep.current.value))
    requires Advances(j.win, w') && (w'.acked && !j.win.acked ==> OneEpoch(j))
    ensures var j' := j.(win := w');
            && DownOk(j') && NetOk(j') && UpOk(j')
            && (j.rep.current.Some? ==> Timely(j', Id(j.rep.current.value)))
  {
    hide Carries, High;
    var j' := j.(win := w');
    forall a | Timely(j, a) && (w'.acked && !j.win.acked ==> a.epoch == j.win.base.epoch)
      ensures Timely(j', a)
    {
    }
    forall d | d in j'.net ensures PacketOk(j', d, j'.net[d]) {
      assert PacketOk(j, d, j.net[d]);
    }
    forall i | 0 <= i < |j'.up| ensures ControlOk(j', j'.up[i]) {
      assert ControlOk(j, j.up[i]);
    }
  }

  /** An acknowledged base leaves only its own epoch under way. */
  lemma AckedMeansOneEpoch(j: Joint)
    requires DownOk(j) && UpOk(j) && GateOk(j) && !j.exited && j.win.acked
    ensures OneEpoch(j)
  {
    forall i | 0 <= i < |j.up| ensures j.up[i].Epoch() == j.win.base.epoch {
      assert ControlOk(j, j.up[i]);
    }
  }

  /** A new keyframe: what was under way is now from this epoch or the one just retired. */
  lemma RebaseBounds(j: Joint, w': Window, k: State)
    requires GateOk(j) && !j.exited && WindowOk(j.win, j.supplied) && WindowOk(w', j.supplied) && Rebased(j.win, w', k)
    ensures Recent(w', j.win.base.epoch) && AtMost(Bound(j.win), Bound(w'))
  {
    RetireOk(j.win, k.epoch);
  }

  lemma RebaseNet(j: Joint, w': Window, k: State)
    requires NetOk(j) && GateOk(j) && !j.exited
    requires WindowOk(j.win, j.supplied) && WindowOk(w', j.supplied) && Rebased(j.win, w', k)
    ensures NetOk(j.(win := w', down := j.down + [k], keyframes := j.keyframes + [k], crowd := {}))
  {
    hide Carries;
    RebaseBounds(j, w', k);
    var j' := j.(win := w', down := j.down + [k], keyframes := j.keyframes + [k], crowd := {});
    forall d | d in j'.net ensures PacketOk(j', d, j'.net[d]) {
      assert PacketOk(j, d, j.net[d]);
    }
  }

  lemma RebaseUp(j: Joint, w': Window, k: State)
    requires UpOk(j) && GateOk(j) && !j.exited
    requires WindowOk(j.win, j.supplied) && WindowOk(w', j.supplied) && Rebased(j.win, w', k)
    ensures UpOk(j.(win := w', down := j.down + [k], keyframes := j.keyframes + [k], crowd := {}))
  {
    hide Known, High;
    RetireOk(j.win, k.epoch);
    RebaseBounds(j, w', k);
    var j' := j.(win := w', down := j.down + [k], keyframes := j.keyframes + [k], crowd := {});
    forall i | 0 <= i < |j'.up| ensures ControlOk(j', j'.up[i]) {
      assert ControlOk(j, j.up[i]);
    }
  }

  lemma RebaseKeeps(j: Joint, w': Window, k: State)
    requires DownOk(j) && NetOk(j) && UpOk(j) && GateOk(j) && !j.exited
    requires WindowOk(j.win, j.supplied) && WindowOk(w', j.supplied) && Rebased(j.win, w', k)
    ensures var j' := j.(win := w', down := j.down + [k], keyframes := j.keyframes + [k], crowd := {});
            DownOk(j') && NetOk(j') && UpOk(j') && GateOk(j')
  {
    hide NetOk, UpOk;
    AckedMeansOneEpoch(j);
    RetireOk(j.win, k.epoch);
    RebaseBounds(j, w', k);
    RebaseNet(j, w', k);
    RebaseUp(j, w', k);
    var j' := j.(win := w', down := j.down + [k], keyframes := j.keyframes + [k], crowd := {});
    assert j'.down[|j.down|] == k;
  }

  /** Carrying out any update that the window may emit keeps the invariant. */
  lemma SendOk(j: Joint, w': Window, u: Option<Update>)
    requires Core(j) && !j.exited
    requires WindowOk(w', j.supplied) && Emits(j.win, w', u) && Goal(w') == j.newest
    ensures Inv(Send(j, Ok((w', u))))
  {
    hide WindowOk, ReplicaOk, SupplyNewest, DownOk, NetOk, UpOk, GateOk, LogOk, BoxOk, Encode, DeltaPair, High;
    match u
    case None => SendNothing(j, w');
    case Some(Keyframe(k)) => RebaseKeeps(j, w', k);
    case Some(Delta(d)) => SendDelta(j, w', d);
  }

  lemma SendNothing(j: Joint, w': Window)
    requires Core(j) && !j.exited
    requires WindowOk(w', j.supplied) && SameBase(j.win, w')
    ensures Core(j.(win := w'))
  {
    hide WindowOk, ReplicaOk, SupplyNewest, DownOk, NetOk, UpOk, High, LogOk, BoxOk;
    AdvanceKeeps(j, w');
  }

  lemma SendDelta(j: Joint, w': Window, d: Datagram)
    requires Core(j) && !j.exited
    requires WindowOk(w', j.supplied) && Emits(j.win, w', Some(Delta(d)))
    ensures Core(Send(j, Ok((w', Some(Delta(d))))))
  {
    hide ReplicaOk, SupplyNewest, DownOk, UpOk, LogOk, Encode, ValidViewport;
    SendNothing(j, w');
    NetGrows(j.(win := w'), d, Packet(w'.base, Goal(w'), j.crowd));
  }

  lemma NetGrows(j: Joint, d: Datagram, p: Packet)
    requires Core(j) && PacketOk(j, d, p)
    ensures Core(j.(net := j.net[d := p]))
  {
    hide ReplicaOk, WindowOk, SupplyNewest, LogOk, KeyframesOk, Carries;
    var j' := j.(net := j.net[d := p]);
    forall x | x in j'.net ensures PacketOk(j', x, j'.net[x]) {
      assert x != d ==> PacketOk(j, x, j.net[x]);
    }
    forall i | 0 <= i < |j'.up| ensures ControlOk(j', j'.up[i]) {
      assert ControlOk(j, j.up[i]);
    }
  }

  lemma OutputOk(j: Joint, s: State, fits: bool)
    requires Inv(j) && Enabled(j, Output(s, fits))
    ensures Inv(Next(j, Output(s, fits))) && !Next(j, Output(s, fits)).serverError
  {
    hide ValidViewport, WindowOk, ReplicaOk, SupplyNewest, LogOk, DownOk, NetOk, BoxOk, UpOk, GateOk, KeyframesOk,
        Emits;
    SuppliedOk(j, s);
    var m := Supplied(j, s);
    BehindNewest(m);
    PrepareUpdateOk(j.win, s, fits, m.supplied);
    var (w, u) := j.win.PrepareUpdate(s, fits).value;
    SendOk(m, w, u);
  }

  lemma BehindNewest(j: Joint)
    requires Core(j)
    ensures SupplyOk(j.supplied) && AtMost(Id(j.win.base), Id(j.newest))
    ensures j.win.latest.Some? ==> AtMost(Id(j.win.latest.value), Id(j.newest))
  {
    hide ValidViewport, ReplicaOk, LogOk, DownOk, NetOk, BoxOk, UpOk, GateOk, KeyframesOk;
  }

  lemma TimerOk(j: Joint, e: Event)
    requires Inv(j) && Enabled(j, e) && (e.Retry? || e.Rekey?)
    ensures Inv(Next(j, e)) && !Next(j, e).serverError
  {
    hide ValidViewport, WindowOk, ReplicaOk, LogOk, DownOk, NetOk, BoxOk, UpOk, GateOk, KeyframesOk, Emits;
    match e
    case Retry(fits) =>
      RetryLatestOk(j.win, fits, j.supplied);
      var (w, u) := j.win.RetryLatest(fits).value;
      SendOk(j, w, u);
    case Rekey =>
      RekeyLatestOk(j.win, j.supplied);
      var (w, u) := j.win.RekeyLatest().value;
      SendOk(j, w, u);
  }

  lemma ExitOk(j: Joint, s: State)
    requires Inv(j) && Enabled(j, Exit(s))
    ensures Inv(Next(j, Exit(s))) && !Next(j, Exit(s)).serverError
  {
    hide ValidViewport, WindowOk, ReplicaOk, LogOk, NetOk, BoxOk, KeyframesOk, Carries;
    SuppliedOk(j, s);
    ExitFrame(Supplied(j, s));
  }

  lemma ExitFrame(j: Joint)
    requires Core(j)
    ensures Core(j.(down := j.down + [j.newest], exited := true))
  {
    hide ValidViewport, WindowOk, LogOk, BoxOk, KeyframesOk, Carries, High;
    var j' := j.(down := j.down + [j.newest], exited := true);
    forall d | d in j'.net ensures PacketOk(j', d, j'.net[d]) {
      assert PacketOk(j, d, j.net[d]);
    }
    forall i | 0 <= i < |j'.up| ensures ControlOk(j', j'.up[i]) {
      assert ControlOk(j, j.up[i]);
    }
  }

  /** The next control message is taken off the stream. */
  lemma PopControl(j: Joint)
    requires Core(j) && j.up != [] && !j.exited
    ensures var m := j.(up := j.up[1..]);
            && DownOk(m) && NetOk(m) && UpOk(m)
            && ControlOk(m, j.up[0])
            && (j.rep.current.Some? ==> Timely(m, Id(j.rep.current.value)))
            && (forall i :: 0 <= i < |m.up| ==> j.up[0].Epoch() <= m.up[i].Epoch())
            && (j.up[0] != StateAck(Id(j.win.base)) ==> GateOk(m))
  {
    hide ValidViewport, WindowOk, ReplicaOk, SupplyNewest, LogOk, BoxOk, KeyframesOk, Carries;
    var m := j.(up := j.up[1..]);
    forall d | d in m.net ensures PacketOk(m, d, m.net[d]) {
      assert PacketOk(j, d, j.net[d]);
    }
    forall i | 0 <= i < |j.up| ensures ControlOk(m, j.up[i]) {
      assert ControlOk(j, j.up[i]);
    }
    forall c | c in j.up && c != j.up[0] ensures c in m.up {
      var i :| 0 <= i < |j.up| && j.up[i] == c;
      assert m.up[i - 1] == c;
    }
  }

  /** No acknowledgement that can arrive is refused, stale and retired ones included. */
  lemma AckReceived(j: Joint)
    requires j.up != [] && j.up[0].StateAck?
    requires Inv(j) && ServerRuns(j)
    ensures var j' := ReceiveControl(j.(up := j.up[1..]), j.up[0]);
            Inv(j') && !j'.serverError
  {
    hide ValidViewport, WindowOk, ReplicaOk, LogOk, NetOk, BoxOk, Carries, High;
    PopControl(j);
    var m, a := j.(up := j.up[1..]), j.up[0].ack;
    AcknowledgeOk(j.win, a, j.supplied);
    var (w, advanced) := j.win.Acknowledge(a).value;
    if w.acked && !j.win.acked { FirstAck(m, a); }
    AdvanceKeeps(m, w);
    AckBookkeeping(m, a, w, Crowd(m, w, advanced));
  }

  lemma FirstAck(j: Joint, a: Ack)
    requires DownOk(j) && UpOk(j) && !j.exited && ControlOk(j, StateAck(a)) && a == Id(j.win.base)
    requires Timely(j, Id(j.rep.current.value))
    requires forall i :: 0 <= i < |j.up| ==> a.epoch <= j.up[i].Epoch()
    ensures OneEpoch(j)
  {
    forall i | 0 <= i < |j.up| ensures j.up[i].Epoch() == j.win.base.epoch {
      assert ControlOk(j, j.up[i]);
    }
  }

  lemma AckBookkeeping(m: Joint, a: Ack, w: Window, crowd: set<nat>)
    requires !m.exited && ControlOk(m, StateAck(a)) && Acknowledged(m.win, w, a)
    requires a == Id(m.win.base) ==> w.acked
    requires KeyframesOk(m.keyframes, m.acks, m.win)
    requires a != Id(m.win.base) ==> GateOk(m)
    requires m.win.acked ==> Logged(m.log, Id(m.win.base))
    requires var j' := m.(win := w);
             DownOk(j') && NetOk(j') && UpOk(j') && Timely(j', Id(m.rep.current.value))
    ensures var j' := m.(win := w, acks := m.acks + {a}, crowd := crowd);
            && KeyframesOk(j'.keyframes, j'.acks, w)
            && DownOk(j') && NetOk(j') && UpOk(j') && GateOk(j')
  {
    hide Carries, High, Known;
    var j0, j' := m.(win := w), m.(win := w, acks := m.acks + {a}, crowd := crowd);
    forall d | d in j'.net ensures PacketOk(j', d, j'.net[d]) {
      assert PacketOk(j0, d, j0.net[d]);
    }
    forall i | 0 <= i < |j'.up| ensures ControlOk(j', j'.up[i]) {
      assert ControlOk(j0, j0.up[i]);
    }
  }

  lemma RepairReceived(j: Joint)
    requires j.up != [] && j.up[0].StateRepair?
    requires Inv(j) && ServerRuns(j)
    ensures var j' := ReceiveControl(j.(up := j.up[1..]), j.up[0]);
            Inv(j') && (j'.serverError <==> Hazard(j.win, j.up[0].request))
  {
    hide ValidViewport, WindowOk, ReplicaOk, LogOk, DownOk, NetOk, BoxOk, UpOk, GateOk, KeyframesOk, Emits, High;
    PopControl(j);
    var m, r := j.(up := j.up[1..]), j.up[0].request;
    RepairUnderstood(m, r);
    RepairRejected(j.win, r, j.supplied);
    if j.win.Repair(r).Ok? {
      RepairOk(j.win, r, j.supplied);
      var (w, u) := j.win.Repair(r).value;
      SendOk(m, w, u);
    } else {
      ErrorIgnored(m);
    }
  }

  lemma RepairUnderstood(j: Joint, r: RepairRequest)
    requires ControlOk(j, StateRepair(r)) && !j.exited && WindowOk(j.win, j.supplied)
    ensures 0 < r.missingBase <= r.newestSeen
    ensures r.epoch in j.win.retired || (r.epoch == j.win.base.epoch && r.missingBase <= j.win.base.generation)
  {
    hide Known;
  }

  lemma ErrorIgnored(j: Joint)
    requires Inv(j)
    ensures Inv(j.(serverError := true))
  {
    hide ValidViewport, WindowOk, ReplicaOk, SupplyNewest, LogOk, BoxOk, KeyframesOk, Carries;
    var j' := j.(serverError := true);
    forall d | d in j'.net ensures PacketOk(j', d, j'.net[d]) {
      assert PacketOk(j, d, j.net[d]);
    }
    forall i | 0 <= i < |j'.up| ensures ControlOk(j', j'.up[i]) {
      assert ControlOk(j, j.up[i]);
    }
  }

  // ---------------------------------------------------------------- client steps

  /** A message the client adds: its epoch is current, so the stream stays in order. */
  lemma PushControl(j: Joint, c: Control)
    requires DownOk(j) && NetOk(j) && UpOk(j) && ControlOk(j, c)
    requires c.Epoch() == j.rep.current.value.epoch
    ensures var j' := j.(up := j.up + [c]);
            DownOk(j') && NetOk(j') && UpOk(j')
  {
    hide Carries, High, Known;
    var j' := j.(up := j.up + [c]);
    forall d | d in j'.net ensures PacketOk(j', d, j'.net[d]) {
      assert PacketOk(j, d, j.net[d]);
    }
    forall i | 0 <= i < |j'.up| ensures ControlOk(j', j'.up[i]) {
      assert i < |j.up| ==> ControlOk(j, j.up[i]);
    }
  }

  /** Committing `s`: everything recorded before stays recorded. */
  lemma CommitKeeps(j: Joint, r: Replica, box: Mailbox, s: State)
    requires DownOk(j) && NetOk(j) && UpOk(j)
    requires j.rep.current.Some? ==> j.rep.current.value.epoch <= s.epoch
    requires r.current == Some(s)
    requires forall i :: 0 <= i < |j.down| ==> s.epoch <= j.down[i].epoch
    ensures var j' := j.(rep := r, box := box, log := j.log + [s]);
            DownOk(j') && NetOk(j') && UpOk(j') && Logged(j'.log, Id(s))
            && forall a :: Logged(j.log, a) ==> Logged(j'.log, a)
  {
    hide Carries, High, Known;
    var j' := j.(rep := r, box := box, log := j.log + [s]);
    forall a | Logged(j.log, a) ensures Logged(j'.log, a) {
      var i :| 0 <= i < |j.log| && Id(j.log[i]) == a;
      assert Id(j'.log[i]) == a;
    }
    assert Id(j'.log[|j.log|]) == Id(s);
    forall d | d in j'.net ensures PacketOk(j', d, j'.net[d]) {
      assert PacketOk(j, d, j.net[d]);
    }
    forall i | 0 <= i < |j'.up| ensures ControlOk(j', j'.up[i]) {
      assert ControlOk(j, j.up[i]);
    }
  }

  lemma LogGrows(log: seq<State>, current: Option<State>, s: State, sup: Supply)
    requires LogOk(log, current, sup) && Known(sup, s)
    requires current.Some? ==> Before(Id(current.value), Id(s))
    ensures LogOk(log + [s], Some(s), sup)
  {
    hide Known;
  }

  /** The next keyframe is taken off the stream. */
  lemma PopKeyframe(j: Joint)
    requires j.down != []
    requires Core(j)
    ensures var m, s := j.(down := j.down[1..]), j.down[0];
            && DownOk(m) && NetOk(m) && UpOk(m)
            && Known(j.supplied, s) && Timely(m, Id(s))
            && (j.rep.current.Some? ==> j.rep.current.value.epoch <= s.epoch)
            && (forall i :: 0 <= i < |m.down| ==> s.epoch <= m.down[i].epoch)
            && (s != j.win.base ==> GateOk(m))
  {
    hide ValidViewport, WindowOk, ReplicaOk, SupplyNewest, LogOk, BoxOk, KeyframesOk, Carries;
    var m := j.(down := j.down[1..]);
    forall d | d in m.net ensures PacketOk(m, d, m.net[d]) {
      assert PacketOk(j, d, j.net[d]);
    }
    forall i | 0 <= i < |j.up| ensures ControlOk(m, j.up[i]) {
      assert ControlOk(j, j.up[i]);
    }
    forall s | s in j.down && s != j.down[0] ensures s in m.down {
      var i :| 0 <= i < |j.down| && j.down[i] == s;
      assert m.down[i - 1] == s;
    }
  }

  /** An acknowledged keyframe keeps the gate: if it was the base, this is the base's acknowledgement. */
  lemma GateAfterAck(j: Joint, s: State)
    requires j.rep.current.Some? && AtMost(Id(s), Id(j.rep.current.value))
    requires Timely(j, Id(j.rep.current.value))
    requires j.win.acked ==> Logged(j.log, Id(j.win.base))
    requires !j.win.acked && !j.exited && s != j.win.base ==>
               j.win.base in j.down || StateAck(Id(j.win.base)) in j.up
    ensures GateOk(j.(up := j.up + [StateAck(Id(j.rep.current.value))]))
  {
    var a := StateAck(Id(j.rep.current.value));
    var up' := j.up + [a];
    assert up'[|j.up|] == a;
  }

  lemma KeyframeReceived(j: Joint)
    requires j.down != []
    requires Inv(j)
    ensures var j' := ReceiveKeyframe(j.(down := j.down[1..]), j.down[0]);
            Inv(j') && j'.serverError == j.serverError
  {
    hide ValidViewport, WindowOk, ReplicaOk, SupplyOk, DownOk, NetOk, UpOk, KeyframesOk, Carries, High;
    PopKeyframe(j);
    var m, s := j.(down := j.down[1..]), j.down[0];
    KeyframeOk(j.rep, s, j.supplied);
    var (r, out) := j.rep.ApplyKeyframe(s).value;
    if out == Applied { KeyframeCommitted(m, r, s); } else { KeyframeStale(m, s); }
  }

  lemma KeyframeCommitted(m: Joint, r: Replica, s: State)
    requires DownOk(m) && NetOk(m) && UpOk(m) && Known(m.supplied, s) && Timely(m, Id(s)) && SupplyOk(m.supplied)
    requires r.current == Some(s) && (m.rep.current.Some? ==> Before(Id(m.rep.current.value), Id(s)))
    requires forall i :: 0 <= i < |m.down| ==> s.epoch <= m.down[i].epoch
    requires LogOk(m.log, m.rep.current, m.supplied) && BoxOk(m.box, m.rep.current, m.net)
    requires m.win.acked ==> Logged(m.log, Id(m.win.base))
    requires s != m.win.base ==> GateOk(m)
    ensures var j' := ClientAcks(m.(rep := r, box := m.box.CommitKeyframe(s), log := m.log + [s]));
            && DownOk(j') && NetOk(j') && UpOk(j') && GateOk(j')
            && LogOk(j'.log, r.current, m.supplied) && BoxOk(j'.box, r.current, j'.net)
  {
    hide ValidViewport, DownOk, NetOk, UpOk, High;
    CommitKeeps(m, r, m.box.CommitKeyframe(s), s);
    LogGrows(m.log, m.rep.current, s, m.supplied);
    var m1 := m.(rep := r, box := m.box.CommitKeyframe(s), log := m.log + [s]);
    PushControl(m1, StateAck(Id(s)));
    GateAfterAck(m1, s);
  }

  lemma KeyframeStale(m: Joint, s: State)
    requires DownOk(m) && NetOk(m) && UpOk(m) && SupplyOk(m.supplied)
    requires m.rep.current.Some? && AtMost(Id(s), Id(m.rep.current.value))
    requires Timely(m, Id(m.rep.current.value)) && LogOk(m.log, m.rep.current, m.supplied)
    requires m.win.acked ==> Logged(m.log, Id(m.win.base))
    requires s != m.win.base ==> GateOk(m)
    ensures var j' := ClientAcks(m);
            DownOk(j') && NetOk(j') && UpOk(j') && GateOk(j')
  {
    hide ValidViewport, DownOk, NetOk, UpOk, High;
    var a := Id(m.rep.current.value);
    assert Logged(m.log, a) by { assert Id(m.log[|m.log| - 1]) == a; }
    PushControl(m, StateAck(a));
    GateAfterAck(m, s);
  }

  lemma DatagramDelivered(j: Joint, d: Datagram)
    requires Inv(j) && d in j.net
    ensures Inv(j.(box := j.box.Deliver(d)))
  {
    hide ValidViewport, WindowOk, ReplicaOk, SupplyNewest, LogOk, KeyframesOk, Carries;
    BoxChanges(j, j.box.Deliver(d));
  }

  lemma BoxChanges(j: Joint, box: Mailbox)
    requires DownOk(j) && NetOk(j) && UpOk(j) && GateOk(j)
    ensures var j' := j.(box := box); DownOk(j') && NetOk(j') && UpOk(j') && GateOk(j')
  {
    hide Carries, High, Known;
    var j' := j.(box := box);
    forall d | d in j'.net ensures PacketOk(j', d, j'.net[d]) {
      assert PacketOk(j, d, j.net[d]);
    }
    forall i | 0 <= i < |j'.up| ensures ControlOk(j', j'.up[i]) {
      assert ControlOk(j, j.up[i]);
    }
  }

  /** A datagram from the mailbox commits its own target, asks for repair, or changes nothing. */
  lemma DatagramReceived(j: Joint)
    requires j.box.slot.Some?
    requires Inv(j)
    ensures var j' := ReceiveDatagram(j.(box := j.box.Take()), j.box.slot.value);
            Inv(j') && j'.serverError == j.serverError
  {
    hide ValidViewport, WindowOk, ReplicaOk, SupplyOk, DownOk, UpOk, GateOk, LogOk, KeyframesOk, Carries, High;
    var d := j.box.slot.value;
    var m := j.(box := j.box.Take());
    BoxChanges(j, j.box.Take());
    assert PacketOk(m, d, m.net[d]);
    var p := m.net[d];
    DatagramOk(j.rep, d, p, j.supplied);
    var (r, out) := j.rep.ApplyDatagram(d).value;
    match out
    case Applied => DatagramCommitted(m, r, d, p);
    case Stale =>
    case MissingBase => RepairSent(m, d, p);
  }

  lemma DatagramCommitted(m: Joint, r: Replica, d: Datagram, p: Packet)
    requires DownOk(m) && NetOk(m) && UpOk(m) && GateOk(m) && SupplyOk(m.supplied)
    requires LogOk(m.log, m.rep.current, m.supplied) && BoxOk(m.box, m.rep.current, m.net)
    requires PacketOk(m, d, p) && r.current == Some(p.target) && m.rep.current.Some?
    requires m.rep.current.value.epoch == p.target.epoch && m.rep.current.value.generation < p.target.generation
    ensures var j' := ClientAcks(m.(rep := r, log := m.log + [p.target]));
            && DownOk(j') && NetOk(j') && UpOk(j') && GateOk(j')
            && LogOk(j'.log, r.current, m.supplied) && BoxOk(j'.box, r.current, j'.net)
  {
    hide ValidViewport, NetOk, UpOk, High, Carries;
    CommitKeeps(m, r, m.box, p.target);
    LogGrows(m.log, m.rep.current, p.target, m.supplied);
    var m1 := m.(rep := r, log := m.log + [p.target]);
    PushControl(m1, StateAck(Id(p.target)));
    assert forall c :: c in m.up ==> c in m.up + [StateAck(Id(p.target))];
  }

  lemma RepairSent(m: Joint, d: Datagram, p: Packet)
    requires DownOk(m) && NetOk(m) && UpOk(m) && GateOk(m) && SupplyOk(m.supplied)
    requires PacketOk(m, d, p) && m.rep.current.Some? && m.rep.current.value.epoch == p.target.epoch
    requires d.diff.epoch == p.target.epoch == p.base.epoch && p.base.generation < p.target.generation
    requires d.diff.targetGeneration == p.target.generation && d.diff.baseGeneration == p.base.generation
    ensures var j' := m.(up := m.up + [StateRepair(m.rep.RepairFor(d))]);
            DownOk(j') && NetOk(j') && UpOk(j') && GateOk(j')
  {
    hide ValidViewport, DownOk, NetOk, UpOk, High, Carries;
    var c := StateRepair(m.rep.RepairFor(d));
    PushControl(m, c);
    assert forall x :: x in m.up ==> x in m.up + [c];
  }

  // ---------------------------------------------------------------- whole runs

  /** The server receives a repair that it will refuse. */
  predicate MeetsHazard(j: Joint, e: Event) {
    e.ServerReceives? && j.up != [] && j.up[0].StateRepair? && Hazard(j.win, j.up[0].request)
  }

  /** Every event keeps the invariant, and only a hazardous repair makes the server fail. */
  lemma NextOk(j: Joint, e: Event)
    requires Enabled(j, e)
    requires Inv(j)
    ensures Inv(Next(j, e))
    ensures Next(j, e).serverError <==> j.serverError || MeetsHazard(j, e)
  {
    hide Inv, ReceiveKeyframe, ReceiveDatagram, ReceiveControl, Send, Hazard, EngineMay;
    match e
    case Output(s, fits) => OutputOk(j, s, fits);
    case Retry(_) => TimerOk(j, e);
    case Rekey => TimerOk(j, e);
    case ServerReceives => if j.up[0].StateAck? { AckReceived(j); } else { RepairReceived(j); }
    case Exit(s) => ExitOk(j, s);
    case ClientReceives => KeyframeReceived(j);
    case NetworkDelivers(d) => DatagramDelivered(j, d);
    case ClientTakes => DatagramReceived(j);
  }

  lemma {:induction false} RunOk(j: Joint, es: seq<Event>)
    requires Inv(j) && After(j, es).Some?
    ensures Inv(After(j, es).value)
  {
    hide Inv, Next, Enabled;
    if es != [] {
      RunOk(j, es[..|es| - 1]);
      NextOk(After(j, es[..|es| - 1]).value, es[|es| - 1]);
    }
  }

  /** A state of some run from attach on. */
  ghost predicate Reachable(route: Route, initial: State, j: Joint) {
    && NewWindow(route, initial, RETAINED_GENERATIONS).Ok?
    && exists es :: After(Attached(route, initial), es) == Some(j)
  }

  lemma ReachableOk(route: Route, initial: State, j: Joint)
    requires Reachable(route, initial, j)
    ensures Inv(j)
  {
    hide Inv, NewWindow, After;
    var es :| After(Attached(route, initial), es) == Some(j);
    AttachedOk(route, initial);
    RunOk(Attached(route, initial), es);
  }

  /**
    End-to-end safety: whatever the network does, everything the client commits is
    exactly what the engine supplied under that epoch and generation, commits never
    go back, and the client never fails on a datagram or keyframe.
   */
  lemma EndToEndSafety(route: Route, initial: State, j: Joint)
    requires Reachable(route, initial, j)
    ensures !j.clientError
    ensures forall i :: 0 <= i < |j.log| ==>
              Id(j.log[i]) in j.supplied && j.supplied[Id(j.log[i])] == j.log[i]
    ensures forall i, k :: 0 <= i < k < |j.log| && j.log[i].epoch == j.log[k].epoch ==>
              j.log[i].generation < j.log[k].generation
    ensures forall i, k :: 0 <= i < k < |j.log| ==> j.log[i].epoch <= j.log[k].epoch
    ensures j.rep.current == if j.log == [] then None else Some(j.log[|j.log| - 1])
  {
    hide WindowOk, ReplicaOk, SupplyNewest, DownOk, NetOk, UpOk, GateOk, BoxOk, KeyframesOk, Reachable;
    ReachableOk(route, initial, j);
  }

  /**
    ACK gating: all keyframes but at most the last are acknowledged, every delta on
    the network starts from a state the client has committed, an acknowledged base is
    committed, and both ends retain a bounded number of states.
   */
  lemma AckGating(route: Route, initial: State, j: Joint)
    requires Reachable(route, initial, j)
    ensures forall i :: 0 <= i < |j.keyframes| - 1 ==> Id(j.keyframes[i]) in j.acks
    ensures j.win.acked ==> forall i :: 0 <= i < |j.keyframes| ==> Id(j.keyframes[i]) in j.acks
    ensures forall d :: d in j.net ==> Logged(j.log, Id(j.net[d].base))
    ensures j.win.acked ==> Logged(j.log, Id(j.win.base))
    ensures |j.win.sent| <= RETAINED_GENERATIONS && |j.rep.retained| <= RETAINED_GENERATIONS
    ensures |j.win.retired| <= RETAINED_GENERATIONS
    ensures j.win.base.generation in j.win.sent
  {
    hide Known, Carries, SupplyNewest, DownOk, UpOk, LogOk, BoxOk, Reachable;
    ReachableOk(route, initial, j);
    forall d | d in j.net ensures Logged(j.log, Id(j.net[d].base)) {
      assert PacketOk(j, d, j.net[d]);
    }
  }
}
