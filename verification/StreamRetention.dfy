/**
  Between these two ends no repair is ever needed: the receiver still holds the
  base of every datagram it could apply.  Both ends retain the same number of
  states, and a generation x becomes the base only while at most 126 newer ones
  have been sent, so the receiver cannot have evicted x for those.
 */
module StreamRetention {
  import opened Basics
  import opened TerminalState
  import opened ViewportDiff
  import opened GenerationMaps
  import opened StreamEndpoints
  import opened StreamWindowInvariants
  import opened StreamReplicaInvariants
  import opened StreamProtocol

  /** Retained states other than the pinned base and the one in question. */
  const ROOM: nat := RETAINED_GENERATIONS - 2

  /** Deltas on an older base reach no further, and beyond a newer base only into its crowd. */
  predicate PairOk(p: Packet, q: Packet) {
    p.base.epoch == q.base.epoch && p.base.generation < q.base.generation ==>
      && p.target.generation <= q.target.generation
      && (q.base.generation < p.target.generation ==> p.target.generation in q.crowd)
  }

  predicate PacketsOk(net: map<Datagram, Packet>) {
    && (forall d :: d in net ==> |net[d].crowd| <= ROOM)
    && (forall d, e :: d in net && e in net ==> PairOk(net[d], net[e]))
  }

  /** A keyframe is not passed by a delta on an older base. */
  predicate FrameOk(p: Packet, s: State) {
    p.base.epoch == s.epoch && p.base.generation < s.generation ==> p.target.generation <= s.generation
  }

  predicate FramesOk(net: map<Datagram, Packet>, down: seq<State>) {
    forall d, i :: d in net && 0 <= i < |down| ==> FrameOk(net[d], down[i])
  }

  /** The receiver would apply this delta if it has the base. */
  predicate Waiting(current: Option<State>, p: Packet) {
    current.Some? && p.target.epoch == current.value.epoch && current.value.generation < p.target.generation
  }

  /** Generation `x` is retained and safe from eviction. */
  predicate Ready(r: Replica, x: nat, crowd: set<nat>) {
    x in r.retained && (r.pinned == x || forall g :: g in r.retained && x < g ==> g in crowd)
  }

  predicate ClientOk(r: Replica, log: seq<State>, net: map<Datagram, Packet>) {
    && (forall d :: d in net && Waiting(r.current, net[d]) ==>
          Ready(r, net[d].base.generation, net[d].crowd) && r.pinned <= net[d].base.generation)
    && (r.current.Some? ==> forall g :: g in r.retained ==> Logged(log, Ack(r.current.value.epoch, g)))
  }

  /** What has been sent above a generation still in the window is in the window too. */
  predicate SentClosed(w: Window, g: Ack) {
    g.epoch == w.base.epoch ==>
      forall x :: x in w.sent && w.base.generation < x < g.generation ==> g.generation in w.sent
  }

  /** Sent generations above the base: what lies above one of them was not evicted before it. */
  predicate ClosedOk(w: Window, net: map<Datagram, Packet>, log: seq<State>) {
    && (forall d :: d in net ==> SentClosed(w, Id(net[d].target)))
    && (forall i :: 0 <= i < |log| ==> SentClosed(w, Id(log[i])))
  }

  /** Deltas on an older base that reach beyond this one are in its crowd. */
  predicate CrowdOk(w: Window, net: map<Datagram, Packet>, crowd: set<nat>) {
    && |crowd| <= ROOM
    && forall d :: d in net && net[d].base.epoch == w.base.epoch
                   && net[d].base.generation < w.base.generation < net[d].target.generation
                   ==> net[d].target.generation in crowd
  }

  /** Committed generations that an acknowledgement could still make the base are retained. */
  predicate HeldOk(w: Window, log: seq<State>, r: Replica) {
    forall i :: 0 <= i < |log| && log[i].epoch == w.base.epoch
                && w.base.generation < log[i].generation && log[i].generation in w.sent
                ==> log[i].generation in r.retained
  }

  /** Keyframes under way are not newer than the base, and neither is the receiver's pin. */
  predicate BehindBase(w: Window, down: seq<State>, r: Replica) {
    && (forall i :: 0 <= i < |down| && down[i].epoch == w.base.epoch ==> down[i].generation <= w.base.generation)
    && (r.current.Some? && r.current.value.epoch == w.base.epoch ==> r.pinned <= w.base.generation)
  }

  predicate ServerOk(j: Joint) {
    && ClosedOk(j.win, j.net, j.log) && CrowdOk(j.win, j.net, j.crowd)
    && HeldOk(j.win, j.log, j.rep) && BehindBase(j.win, j.down, j.rep)
    && (j.win.acked ==> Ready(j.rep, j.win.base.generation, j.crowd))
  }

  predicate Tight(j: Joint) {
    && PacketsOk(j.net) && FramesOk(j.net, j.down) && ClientOk(j.rep, j.log, j.net)
    && (!j.exited ==> ServerOk(j))
    && (forall i :: 0 <= i < |j.up| ==> j.up[i].StateAck?)
    && !j.serverError
  }

  // ---------------------------------------------------------------- server steps

  /** Facts about packets that the first invariant gives. */
  lemma PacketFacts(j: Joint, d: Datagram)
    requires NetOk(j) && d in j.net
    ensures var p := j.net[d];
            && p.base.epoch == p.target.epoch && p.base.generation < p.target.generation
            && Logged(j.log, Id(p.base))
            && (!j.exited ==> AtMost(Id(p.target), Bound(j.win)) && AtMost(Id(p.base), Id(j.win.base)))
  {
    hide Encode, ValidViewport, Known, High;
    assert PacketOk(j, d, j.net[d]);
  }

  lemma LoggedAtMost(j: Joint, i: nat)
    requires Core(j) && i < |j.log|
    ensures j.rep.current.Some? && AtMost(Id(j.log[i]), Id(j.rep.current.value))
    ensures !j.exited ==> AtMost(Id(j.log[i]), Bound(j.win))
    ensures j.log[i] == j.rep.current.value || Before(Id(j.log[i]), Id(j.rep.current.value))
    ensures j.rep.current.value.generation in j.rep.retained
    ensures !j.exited ==> AtMost(Id(j.rep.current.value), Bound(j.win))
  {
    hide SupplyNewest, DownOk, NetOk, BoxOk, UpOk, KeyframesOk, WindowOk, Known, High;
  }

  lemma PacketJoins(net: map<Datagram, Packet>, d: Datagram, p: Packet, down: seq<State>, r: Replica, log: seq<State>)
    requires PacketsOk(net) && FramesOk(net, down) && ClientOk(r, log, net)
    requires |p.crowd| <= ROOM
    requires forall e :: e in net ==> PairOk(net[e], p) && PairOk(p, net[e])
    requires forall i :: 0 <= i < |down| ==> FrameOk(p, down[i])
    requires Waiting(r.current, p) ==> Ready(r, p.base.generation, p.crowd) && r.pinned <= p.base.generation
    ensures PacketsOk(net[d := p]) && FramesOk(net[d := p], down) && ClientOk(r, log, net[d := p])
  {
    hide Ready, Waiting, FrameOk;
    assert PairOk(p, p);
  }

  /** Sending a delta: its base is ready, and it reaches at least as far as anything sent before. */
  lemma DeltaTight(j: Joint, w': Window, d: Datagram)
    requires Core(j) && !j.exited && Tight(j)
    requires WindowOk(w', j.supplied) && Emits(j.win, w', Some(Delta(d)))
    ensures Tight(Send(j, Ok((w', Some(Delta(d))))))
  {
    hide Encode, ValidViewport, Carries, Known, Trim, WindowOk, ReplicaOk, SupplyNewest, LogOk, BoxOk, KeyframesOk,
        UpOk, DownOk, ClosedOk, HeldOk, NetOk, ClientOk, PacketsOk, FramesOk, Ready;
    var s := w'.latest.value;
    var p := Packet(w'.base, s, j.crowd);
    assert DeltaPair(w'.base, s);
    forall e | e in j.net
      ensures PairOk(j.net[e], p) && PairOk(p, j.net[e]) && AtMost(Id(j.net[e].target), Id(s))
    {
      PacketFacts(j, e);
    }
    PacketJoins(j.net, d, p, j.down, j.rep, j.log);
    DeltaSent(j, s, d, p);
  }

  lemma DeltaSent(j: Joint, s: State, d: Datagram, p: Packet)
    requires Core(j) && !j.exited && j.win.acked && p.target == s
    requires ClosedOk(j.win, j.net, j.log) && HeldOk(j.win, j.log, j.rep)
    requires s.epoch == j.win.base.epoch && j.win.base.generation < s.generation && AtMost(Bound(j.win), Id(s))
    requires forall e :: e in j.net ==> AtMost(Id(j.net[e].target), Id(s))
    ensures ClosedOk(j.win.Remember(s), j.net[d := p], j.log)
    ensures HeldOk(j.win.Remember(s), j.log, j.rep)
  {
    hide SupplyNewest, DownOk, NetOk, BoxOk, UpOk, GateOk, KeyframesOk, LogOk, ReplicaOk, Known, Trim;
    forall i | 0 <= i < |j.log| ensures AtMost(Id(j.log[i]), Id(s)) {
      LoggedAtMost(j, i);
    }
    forall i | 0 <= i < |j.log| ensures SentClosed(j.win.Remember(s), Id(j.log[i])) {
      RememberCloses(j.win, s, Id(j.log[i]));
    }
    var net' := j.net[d := p];
    forall e | e in net' ensures SentClosed(j.win.Remember(s), Id(net'[e].target)) {
      if e == d { RememberCloses(j.win, s, Ack(s.epoch, 0)); } else { RememberCloses(j.win, s, Id(j.net[e].target)); }
    }
    forall i | 0 <= i < |j.log| && j.log[i].epoch == s.epoch && j.log[i].generation == s.generation
      ensures j.log[i].generation in j.rep.retained
    {
      LoggedAtMost(j, i);
    }
  }

  lemma RememberCloses(w: Window, s: State, g: Ack)
    requires SentClosed(w, g) && AtMost(g, Id(s)) && s.epoch == w.base.epoch
    requires w.base.generation < s.generation && w.limit == RETAINED_GENERATIONS
    requires forall x :: x in w.sent ==> x <= s.generation
    ensures SentClosed(w.Remember(s), g) && SentClosed(w.Remember(s), Id(s))
  {
    hide Trim;
    var all := w.sent[s.generation := s];
    TrimKeepsNewest(all, w.base.generation, w.limit, s.generation);
    var w' := w.Remember(s);
    forall x | x in w'.sent && w.base.generation < x < g.generation && g.epoch == w.base.epoch
      ensures g.generation in w'.sent
    {
      if g.generation != s.generation {
        TrimKeepsNewer(all, w.base.generation, w.limit, x, g.generation);
      }
    }
  }

  /** A new keyframe starts with an empty crowd: nothing sent before goes beyond it. */
  lemma KeyframeTight(j: Joint, w': Window, k: State)
    requires Core(j) && !j.exited && Tight(j)
    requires WindowOk(w', j.supplied) && Rebased(j.win, w', k)
    ensures Tight(Send(j, Ok((w', Some(Keyframe(k))))))
  {
    hide Carries, Known, ReplicaOk, SupplyNewest, LogOk, BoxOk, KeyframesOk, UpOk, NetOk, ClientOk, PacketsOk, Ready;
    forall e | e in j.net
      ensures AtMost(Id(j.net[e].target), Id(k)) && j.net[e].base.epoch == j.net[e].target.epoch
    {
      PacketFacts(j, e);
    }
    forall i | 0 <= i < |j.log| ensures AtMost(Id(j.log[i]), Id(k)) {
      LoggedAtMost(j, i);
    }
    AckedMeansOneEpoch(j);
    NothingAbove(j.win, w', j.net, j.log, j.down, j.rep);
  }

  lemma NothingAbove(w: Window, w': Window, net: map<Datagram, Packet>, log: seq<State>, down: seq<State>, r: Replica)
    requires BehindBase(w, down, r) && AtMost(Id(w.base), Id(w'.base))
    requires forall x :: x in w'.sent ==> x <= w'.base.generation
    requires forall i :: 0 <= i < |down| ==> down[i].epoch == w.base.epoch
    requires r.current.Some? ==> r.current.value.epoch == w.base.epoch
    requires forall e :: e in net ==> AtMost(Id(net[e].target), Id(w'.base))
    requires forall e :: e in net ==> net[e].base.epoch == net[e].target.epoch
    requires forall i :: 0 <= i < |log| ==> AtMost(Id(log[i]), Id(w'.base))
    ensures ClosedOk(w', net, log) && CrowdOk(w', net, {}) && HeldOk(w', log, r)
    ensures BehindBase(w', down + [w'.base], r)
  {
  }

  lemma EmittedTight(j: Joint, w': Window, u: Option<Update>)
    requires Core(j) && !j.exited && Tight(j)
    requires WindowOk(w', j.supplied) && Emits(j.win, w', u)
    ensures Tight(Send(j, Ok((w', u))))
  {
    hide Core, WindowOk, PacketsOk, FramesOk, ClientOk, Encode, DeltaPair, High;
    match u
    case None =>
    case Some(Keyframe(k)) => KeyframeTight(j, w', k);
    case Some(Delta(d)) => DeltaTight(j, w', d);
  }

  /** An acknowledgement: the new base is still retained, and what was sent above it is its crowd. */
  lemma AckTight(j: Joint)
    requires j.up != [] && j.up[0].StateAck?
    requires Inv(j) && ServerRuns(j) && Tight(j)
    ensures Tight(ReceiveControl(j.(up := j.up[1..]), j.up[0]))
  {
    hide Carries, Known, ReplicaOk, SupplyNewest, LogOk, BoxOk, KeyframesOk, NetOk, DownOk, UpOk, GateOk, WindowOk,
        ClosedOk, CrowdOk, HeldOk, BehindBase, Ready, ClientOk, PacketsOk, FramesOk, High;
    AckAccepted(j);
    var a := j.up[0].ack;
    var (w, advanced) := j.win.Acknowledge(a).value;
    if advanced {
      BaseMoves(j, a, w);
    } else {
      BaseStays(j, a, w);
    }
  }

  lemma AckAccepted(j: Joint)
    requires j.up != [] && j.up[0].StateAck?
    requires Core(j) && ServerRuns(j)
    ensures Logged(j.log, j.up[0].ack)
    ensures j.win.Acknowledge(j.up[0].ack).Ok?
    ensures var (w, advanced) := j.win.Acknowledge(j.up[0].ack).value;
            Acknowledged(j.win, w, j.up[0].ack) && WindowOk(w, j.supplied) && (advanced <==> w.base != j.win.base)
  {
    hide Carries, Known, ReplicaOk, LogOk, BoxOk, KeyframesOk, NetOk, DownOk, GateOk, WindowOk, ValidViewport, High;
    assert ControlOk(j, j.up[0]);
    AcknowledgeOk(j.win, j.up[0].ack, j.supplied);
  }

  lemma BaseMoves(j: Joint, a: Ack, w: Window)
    requires Core(j) && !j.exited && ServerOk(j) && ClientOk(j.rep, j.log, j.net)
    requires Logged(j.log, a) && Acknowledged(j.win, w, a) && w.base != j.win.base
    ensures var crowd := w.sent.Keys - {w.base.generation};
            && ClosedOk(w, j.net, j.log) && CrowdOk(w, j.net, crowd)
            && HeldOk(w, j.log, j.rep) && BehindBase(w, j.down, j.rep)
            && Ready(j.rep, w.base.generation, crowd)
  {
    hide Carries, Known, SupplyNewest, LogOk, BoxOk, KeyframesOk, NetOk, DownOk, UpOk, High, ReplicaOk;
    var x, crowd := w.base.generation, w.sent.Keys - {w.base.generation};
    BaseLeaves(j, a, w);
    NewBaseReady(j, a, w);
    CardinalityAtMost(crowd, j.win.sent.Keys - {x, j.win.base.generation});
    forall d | d in j.net && j.net[d].base.epoch == w.base.epoch
               && j.net[d].base.generation < x < j.net[d].target.generation
      ensures j.net[d].target.generation in crowd
    {
      PacketFacts(j, d);
      assert SentClosed(j.win, Id(j.net[d].target));
    }
  }

  lemma NewBaseReady(j: Joint, a: Ack, w: Window)
    requires ClosedOk(j.win, j.net, j.log) && HeldOk(j.win, j.log, j.rep) && ClientOk(j.rep, j.log, j.net)
    requires Logged(j.log, a) && Id(w.base) == a && a.epoch == j.win.base.epoch
    requires a.generation in j.win.sent && j.win.base.generation < a.generation
    requires w.sent.Keys == (set g | g in j.win.sent && w.base.generation <= g)
    requires j.rep.current.Some? && j.rep.current.value.epoch == a.epoch
    ensures Ready(j.rep, a.generation, w.sent.Keys - {a.generation})
  {
    var i :| 0 <= i < |j.log| && Id(j.log[i]) == a;
    forall g | g in j.rep.retained && a.generation < g ensures g in w.sent.Keys {
      assert Logged(j.log, Ack(a.epoch, g));
      var k :| 0 <= k < |j.log| && Id(j.log[k]) == Ack(a.epoch, g);
      assert SentClosed(j.win, Id(j.log[k]));
    }
  }

  /** The base moves only to a generation above it that is still in the window, within the client's epoch. */
  lemma BaseLeaves(j: Joint, a: Ack, w: Window)
    requires Core(j) && !j.exited && Acknowledged(j.win, w, a) && w.base != j.win.base
    ensures Id(w.base) == a && a.generation in j.win.sent && j.win.base.generation < a.generation
    ensures j.win.base.generation in j.win.sent && |j.win.sent| <= RETAINED_GENERATIONS
    ensures j.rep.current.Some? && j.rep.current.value.epoch == j.win.base.epoch
  {
    hide ReplicaOk, SupplyNewest, LogOk, NetOk, BoxOk, KeyframesOk, Known, High;
    AckedMeansOneEpoch(j);
  }

  lemma BaseStays(j: Joint, a: Ack, w: Window)
    requires Core(j) && !j.exited && ServerOk(j)
    requires Acknowledged(j.win, w, a) && w.base == j.win.base && Logged(j.log, a)
    ensures ClosedOk(w, j.net, j.log) && CrowdOk(w, j.net, j.crowd)
    ensures HeldOk(w, j.log, j.rep) && BehindBase(w, j.down, j.rep)
    ensures w.acked ==> Ready(j.rep, w.base.generation, j.crowd)
  {
    hide Carries, Known, SupplyNewest, BoxOk, KeyframesOk, NetOk, DownOk, UpOk;
    if w.acked && !j.win.acked {
      var i :| 0 <= i < |j.log| && Id(j.log[i]) == a;
      LoggedAtMost(j, i);
    }
    assert forall g :: g in j.win.sent <==> g in w.sent.Keys;
    assert forall g :: SentClosed(j.win, g) ==> SentClosed(w, g);
  }

  // ---------------------------------------------------------------- client steps

  predicate AllBefore(log: seq<State>, s: State) {
    forall i :: 0 <= i < |log| ==> Before(Id(log[i]), Id(s))
  }

  predicate NoneWaits(net: map<Datagram, Packet>, s: State) {
    forall d :: d in net ==> !Waiting(Some(s), net[d])
  }

  predicate CommitsFrame(j: Joint) {
    j.down != [] && (j.rep.current.None? || Before(Id(j.rep.current.value), Id(j.down[0])))
  }

  /** What a keyframe that commits is newer than. */
  lemma FrameIsNew(j: Joint)
    requires CommitsFrame(j)
    requires Core(j) && FramesOk(j.net, j.down)
    ensures AllBefore(j.log, j.down[0]) && NoneWaits(j.net, j.down[0])
    ensures !j.exited ==> j.down[0].epoch <= j.win.base.epoch
  {
    hide Carries, Known, SupplyNewest, BoxOk, KeyframesOk, UpOk, ReplicaOk, High, WindowOk, NetOk;
    var s := j.down[0];
    forall i | 0 <= i < |j.log| ensures Before(Id(j.log[i]), Id(s)) {
      LoggedAtMost(j, i);
    }
    forall d | d in j.net ensures !Waiting(Some(s), j.net[d]) {
      PacketFacts(j, d);
      var i :| 0 <= i < |j.log| && Id(j.log[i]) == Id(j.net[d].base);
      assert FrameOk(j.net[d], j.down[0]);
    }
  }

  lemma RetainedLogged(r: Replica, log: seq<State>, net: map<Datagram, Packet>, s: State, pin: nat)
    requires ClientOk(r, log, net) && (r.current.None? ==> r.retained == map[])
    ensures var r' := r.(retained := r.Kept(s)).Commit(s, pin);
            forall g :: g in r'.retained ==> Logged(log + [s], Ack(s.epoch, g))
  {
    hide Trim;
    var r' := r.(retained := r.Kept(s)).Commit(s, pin);
    forall g | g in r'.retained ensures Logged(log + [s], Ack(s.epoch, g)) {
      if g == s.generation {
        assert Id((log + [s])[|log|]) == Ack(s.epoch, g);
      } else {
        var i :| 0 <= i < |log| && Id(log[i]) == Ack(s.epoch, g);
        assert (log + [s])[i] == log[i];
      }
    }
  }

  lemma KeyframeTakenTight(j: Joint)
    requires j.down != []
    requires Inv(j) && Tight(j)
    ensures Tight(ReceiveKeyframe(j.(down := j.down[1..]), j.down[0]))
  {
    hide Tight, LogOk, BoxOk, KeyframesOk, UpOk, WindowOk, NetOk, ValidViewport, SupplyOk, High, GateOk, ReplicaOk;
    var s := j.down[0];
    PopKeyframe(j);
    KeyframeOk(j.rep, s, j.supplied);
    if j.rep.current.None? || Before(Id(j.rep.current.value), Id(s)) {
      FrameCommittedTight(j);
    } else {
      FrameStaleTight(j);
    }
  }

  lemma FrameCommittedTight(j: Joint)
    requires CommitsFrame(j)
    requires Core(j) && Tight(j)
    ensures var s := j.down[0];
            var r' := j.rep.(retained := j.rep.Kept(s)).Commit(s, s.generation);
            Tight(ClientAcks(j.(down := j.down[1..], rep := r', box := j.box.CommitKeyframe(s), log := j.log + [s])))
  {
    hide Core, PacketsOk, Ready, ClosedOk, CrowdOk, HeldOk, BehindBase, FrameOk;
    FrameIsNew(j);
    EmptyBeforeFirst(j);
    RetainedLogged(j.rep, j.log, j.net, j.down[0], j.down[0].generation);
    if !j.exited { FrameCommitted(j); }
  }

  lemma FrameStaleTight(j: Joint)
    requires j.down != [] && j.rep.current.Some?
    requires Tight(j)
    ensures Tight(ClientAcks(j.(down := j.down[1..])))
  {
    hide PacketsOk, Ready, ClosedOk, CrowdOk, HeldOk, BehindBase, FrameOk, ClientOk;
    if !j.exited { TailBehind(j); }
  }

  lemma EmptyBeforeFirst(j: Joint)
    requires Core(j)
    ensures j.rep.current.None? ==> j.rep.retained == map[]
  {
    hide Known;
  }

  lemma TailBehind(j: Joint)
    requires j.down != []
    requires BehindBase(j.win, j.down, j.rep)
    ensures BehindBase(j.win, j.down[1..], j.rep)
  {
  }

  lemma FrameCommitted(j: Joint)
    requires j.down != []
    requires Core(j) && !j.exited && ServerOk(j)
    requires forall i :: 0 <= i < |j.log| ==> Before(Id(j.log[i]), Id(j.down[0]))
    requires j.down[0].epoch <= j.win.base.epoch
    ensures var s, log' := j.down[0], j.log + [j.down[0]];
            var r' := j.rep.(retained := j.rep.Kept(s)).Commit(s, s.generation);
            && ClosedOk(j.win, j.net, log') && HeldOk(j.win, log', r')
            && BehindBase(j.win, j.down[1..], r') && !j.win.acked
  {
    hide Carries, Known, BoxOk, KeyframesOk, UpOk, WindowOk, NetOk, ValidViewport, Trim, DownOk, LogOk, SupplyNewest,
        ReplicaOk, High;
    var s := j.down[0];
    assert s.epoch == j.win.base.epoch ==> s.generation <= j.win.base.generation;
  }

  /** Deltas that wait stay ready when an older or equal base commits one of its own. */
  lemma WaitingStayReady(r: Replica, p: Packet, q: Packet)
    requires r.limit == RETAINED_GENERATIONS && p.base.epoch == p.target.epoch && q.base.epoch == q.target.epoch
    requires Waiting(r.current, p) && Ready(r, p.base.generation, p.crowd) && r.pinned <= p.base.generation
    requires Waiting(Some(p.target), q) && PairOk(p, q) && PairOk(q, p) && |q.crowd| <= ROOM
    requires Ready(r, q.base.generation, q.crowd)
    ensures Ready(r.Commit(p.target, p.base.generation), q.base.generation, q.crowd)
    ensures p.base.generation <= q.base.generation
  {
    hide Trim;
    var all := r.retained[p.target.generation := p.target];
    if p.base.generation < q.base.generation {
      TrimKeepsCrowded(all, p.base.generation, r.limit, q.base.generation, q.crowd);
    }
  }

  lemma DatagramCommittedTight(j: Joint, d: Datagram)
    requires d in j.net
    requires Core(j) && Tight(j) && Waiting(j.rep.current, j.net[d])
    ensures var p := j.net[d];
            var r' := j.rep.Commit(p.target, p.base.generation);
            Tight(ClientAcks(j.(rep := r', log := j.log + [p.target])))
  {
    hide Carries, Known, BoxOk, KeyframesOk, UpOk, WindowOk, NetOk, ValidViewport, LogOk, SupplyNewest, High, DownOk,
        GateOk, Trim, ReplicaOk, ClosedOk, CrowdOk, HeldOk, BehindBase, Ready, PairOk;
    var p := j.net[d];
    var r' := j.rep.Commit(p.target, p.base.generation);
    PacketFacts(j, d);
    EmptyBeforeFirst(j);
    RetainedLogged(j.rep, j.log, j.net, p.target, p.base.generation);
    assert j.rep.Kept(p.target) == j.rep.retained;
    forall e | e in j.net && Waiting(r'.current, j.net[e])
      ensures Ready(r', j.net[e].base.generation, j.net[e].crowd) && r'.pinned <= j.net[e].base.generation
    {
      PacketFacts(j, e);
      ReplicaLimit(j);
      WaitingStayReady(j.rep, p, j.net[e]);
    }
    if !j.exited { DeltaCommitted(j, d); }
  }

  lemma ReplicaLimit(j: Joint)
    requires Core(j)
    ensures j.rep.limit == RETAINED_GENERATIONS
  {
    hide Known;
  }

  lemma DeltaCommitted(j: Joint, d: Datagram)
    requires d in j.net
    requires Core(j) && !j.exited && ServerOk(j) && ClientOk(j.rep, j.log, j.net) && Waiting(j.rep.current, j.net[d])
    ensures var p := j.net[d];
            var r', log' := j.rep.Commit(p.target, p.base.generation), j.log + [p.target];
            && ClosedOk(j.win, j.net, log') && HeldOk(j.win, log', r') && BehindBase(j.win, j.down, r')
            && (j.win.acked ==> Ready(r', j.win.base.generation, j.crowd))
  {
    hide Carries, Known, BoxOk, KeyframesOk, UpOk, WindowOk, NetOk, ValidViewport, LogOk, SupplyNewest, High, DownOk,
        GateOk, Trim, ReplicaOk, HeldOk;
    var p := j.net[d];
    PacketFacts(j, d);
    ReplicaLimit(j);
    HeldAfterDelta(j, d);
    if j.win.acked { BaseReadyAfterDelta(j, d); }
  }

  lemma BaseReadyAfterDelta(j: Joint, d: Datagram)
    requires d in j.net
    requires Core(j) && !j.exited && ServerOk(j) && ClientOk(j.rep, j.log, j.net) && Waiting(j.rep.current, j.net[d])
    requires j.win.acked
    ensures Ready(j.rep.Commit(j.net[d].target, j.net[d].base.generation), j.win.base.generation, j.crowd)
  {
    hide Carries, Known, BoxOk, KeyframesOk, WindowOk, NetOk, ValidViewport, LogOk, SupplyNewest, High, Trim,
        ReplicaOk, HeldOk, ClosedOk, BehindBase;
    var p := j.net[d];
    PacketFacts(j, d);
    ReplicaLimit(j);
    AckedMeansOneEpoch(j);
    var all := j.rep.retained[p.target.generation := p.target];
    if p.base.generation < j.win.base.generation {
      TrimKeepsCrowded(all, p.base.generation, j.rep.limit, j.win.base.generation, j.crowd);
    }
  }

  lemma HeldAfterDelta(j: Joint, d: Datagram)
    requires d in j.net
    requires Core(j) && !j.exited && ServerOk(j) && ClientOk(j.rep, j.log, j.net) && Waiting(j.rep.current, j.net[d])
    ensures HeldOk(j.win, j.log + [j.net[d].target], j.rep.Commit(j.net[d].target, j.net[d].base.generation))
  {
    hide Carries, Known, BoxOk, KeyframesOk, WindowOk, NetOk, ValidViewport, LogOk, SupplyNewest, High, Trim,
        ReplicaOk, CrowdOk, BehindBase, Ready, UpOk, DownOk, GateOk;
    var p := j.net[d];
    PacketFacts(j, d);
    ReplicaLimit(j);
    var log' := j.log + [p.target];
    forall i | 0 <= i < |log'| && log'[i].epoch == j.win.base.epoch
               && j.win.base.generation < log'[i].generation && log'[i].generation in j.win.sent
      ensures log'[i].generation in j.rep.Commit(p.target, p.base.generation).retained
    {
      HeldSurvives(j, d, log'[i], i);
    }
  }

  lemma HeldSurvives(j: Joint, d: Datagram, s: State, i: nat)
    requires d in j.net && i <= |j.log| && s == (j.log + [j.net[d].target])[i]
    requires Core(j) && !j.exited && ServerOk(j) && ClientOk(j.rep, j.log, j.net) && Waiting(j.rep.current, j.net[d])
    requires s.epoch == j.win.base.epoch && j.win.base.generation < s.generation && s.generation in j.win.sent
    ensures s.generation in j.rep.Commit(j.net[d].target, j.net[d].base.generation).retained
  {
    hide Carries, Known, BoxOk, KeyframesOk, NetOk, ValidViewport, LogOk, SupplyNewest, High, Trim, CrowdOk,
        BehindBase, Ready, UpOk, DownOk, ReplicaOk;
    var p := j.net[d];
    PacketFacts(j, d);
    ReplicaLimit(j);
    NewestRetained(j);
    var all := j.rep.retained[p.target.generation := p.target];
    if s.generation == p.target.generation {
      TrimKeepsNewest(all, p.base.generation, j.rep.limit, s.generation);
    } else if i < |j.log| {
      LoggedAtMost(j, i);
      var above := j.win.sent.Keys - {s.generation, j.win.base.generation};
      forall k | k in all && k > s.generation ensures k in above {
        AboveIsSent(j, d, s, i, k);
      }
      TrimKeepsCrowded(all, p.base.generation, j.rep.limit, s.generation, above);
    }
  }

  /** What the client retains above a generation that the server still has is still there too. */
  lemma AboveIsSent(j: Joint, d: Datagram, s: State, i: nat, k: nat)
    requires d in j.net && i < |j.log| && s == j.log[i]
    requires Core(j) && !j.exited && ServerOk(j) && ClientOk(j.rep, j.log, j.net) && Waiting(j.rep.current, j.net[d])
    requires s.epoch == j.win.base.epoch && j.win.base.generation < s.generation && s.generation in j.win.sent
    requires k > s.generation && (k == j.net[d].target.generation || k in j.rep.retained)
    ensures k in j.win.sent
  {
    hide Carries, Known, BoxOk, KeyframesOk, NetOk, ValidViewport, LogOk, SupplyNewest, High, CrowdOk, BehindBase,
        Ready, UpOk, DownOk, ReplicaOk, WindowOk;
    PacketFacts(j, d);
    LoggedAtMost(j, i);
    if k == j.net[d].target.generation {
      assert SentClosed(j.win, Id(j.net[d].target));
    } else {
      var m :| 0 <= m < |j.log| && Id(j.log[m]) == Ack(j.rep.current.value.epoch, k);
      assert SentClosed(j.win, Id(j.log[m]));
    }
  }

  lemma NewestRetained(j: Joint)
    requires Core(j) && j.rep.current.Some?
    ensures forall g :: g in j.rep.retained ==> g <= j.rep.current.value.generation
  {
    hide Known;
  }

  // ---------------------------------------------------------------- whole runs

  lemma OutputTight(j: Joint, s: State, fits: bool)
    requires ServerRuns(j) && EngineMay(j, s)
    requires Inv(j) && Tight(j)
    ensures Tight(Send(Supplied(j, s), j.win.PrepareUpdate(s, fits)))
  {
    hide ValidViewport, WindowOk, ReplicaOk, SupplyNewest, LogOk, DownOk, NetOk, BoxOk, UpOk, GateOk, KeyframesOk,
        Emits, PacketsOk, FramesOk, ClientOk, High;
    SuppliedOk(j, s);
    var m := Supplied(j, s);
    BehindNewest(m);
    PrepareUpdateOk(j.win, s, fits, m.supplied);
    var (w, u) := j.win.PrepareUpdate(s, fits).value;
    EmittedTight(m, w, u);
  }

  lemma TimerTight(j: Joint, e: Event)
    requires (e.Retry? || e.Rekey?) && ServerRuns(j)
    requires Inv(j) && Tight(j)
    ensures Tight(Next(j, e))
  {
    hide ValidViewport, WindowOk, ReplicaOk, LogOk, DownOk, NetOk, BoxOk, UpOk, GateOk, KeyframesOk, Emits, Tight, High;
    match e
    case Retry(fits) =>
      RetryLatestOk(j.win, fits, j.supplied);
      var (w, u) := j.win.RetryLatest(fits).value;
      EmittedTight(j, w, u);
    case Rekey =>
      RekeyLatestOk(j.win, j.supplied);
      var (w, u) := j.win.RekeyLatest().value;
      EmittedTight(j, w, u);
  }

  lemma ExitTight(j: Joint, s: State)
    requires ServerRuns(j) && EngineMay(j, s)
    requires Inv(j) && Tight(j)
    ensures Tight(Supplied(j, s).(down := j.down + [s], exited := true))
  {
    hide ValidViewport, WindowOk, ReplicaOk, LogOk, DownOk, BoxOk, UpOk, GateOk, KeyframesOk, PacketsOk, ClientOk,
        ServerOk, High, Carries;
    forall d | d in j.net ensures FrameOk(j.net[d], s) {
      PacketFacts(j, d);
      assert PacketOk(j, d, j.net[d]);
    }
  }

  lemma DatagramTakenTight(j: Joint)
    requires j.box.slot.Some?
    requires Inv(j) && Tight(j)
    ensures Tight(ReceiveDatagram(j.(box := j.box.Take()), j.box.slot.value))
  {
    hide ValidViewport, WindowOk, ReplicaOk, SupplyOk, LogOk, DownOk, UpOk, GateOk, KeyframesOk, PacketsOk, FramesOk,
        Ready, ServerOk, High, Carries;
    var d := j.box.slot.value;
    var m := j.(box := j.box.Take());
    assert PacketOk(j, d, j.net[d]);
    var p := j.net[d];
    DatagramOk(j.rep, d, p, j.supplied);
    if Waiting(j.rep.current, p) {
      ReadyIsRetained(j.rep, p.base.generation, p.crowd);
      DatagramCommittedTight(j, d);
      BoxIgnored(ClientAcks(j.(rep := j.rep.Commit(p.target, p.base.generation), log := j.log + [p.target])),
          j.box.Take());
    } else {
      BoxIgnored(j, j.box.Take());
    }
  }

  lemma BoxIgnored(j: Joint, box: Mailbox)
    requires Tight(j)
    ensures Tight(j.(box := box))
  {
    hide PacketsOk, FramesOk, ClientOk;
  }

  lemma ReadyIsRetained(r: Replica, x: nat, crowd: set<nat>)
    requires Ready(r, x, crowd)
    ensures x in r.retained
  {
  }

  lemma TightNext(j: Joint, e: Event)
    requires Enabled(j, e)
    requires Inv(j) && Tight(j)
    ensures Tight(Next(j, e))
  {
    hide Inv, ReceiveKeyframe, ReceiveDatagram, ReceiveControl, Send, EngineMay, PacketsOk, FramesOk, ClientOk,
        ServerOk;
    match e
    case Output(s, fits) => OutputTight(j, s, fits);
    case Retry(_) => TimerTight(j, e);
    case Rekey => TimerTight(j, e);
    case ServerReceives => AckTight(j);
    case Exit(s) => ExitTight(j, s);
    case ClientReceives => KeyframeTakenTight(j);
    case NetworkDelivers(d) => BoxIgnored(j, j.box.Deliver(d));
    case ClientTakes => DatagramTakenTight(j);
  }

  lemma {:induction false} TightRun(j: Joint, es: seq<Event>)
    requires Inv(j) && Tight(j) && After(j, es).Some?
    ensures Inv(After(j, es).value) && Tight(After(j, es).value)
  {
    hide Inv, Tight, Next, Enabled;
    if es != [] {
      TightRun(j, es[..|es| - 1]);
      NextOk(After(j, es[..|es| - 1]).value, es[|es| - 1]);
      TightNext(After(j, es[..|es| - 1]).value, es[|es| - 1]);
    }
  }

  lemma ReachableTight(route: Route, initial: State, j: Joint)
    requires Reachable(route, initial, j)
    ensures Inv(j) && Tight(j)
  {
    hide Inv, After, ValidViewport;
    var start := Attached(route, initial);
    var es :| After(start, es) == Some(j);
    AttachedOk(route, initial);
    assert Tight(start);
    TightRun(start, es);
  }

  /**
    The receiver never finds a base missing and never asks for a repair, so the
    server never fails, in any run.
   */
  lemma NoRepairNeeded(route: Route, initial: State, j: Joint)
    requires Reachable(route, initial, j)
    ensures !j.serverError && !j.clientError
    ensures forall i :: 0 <= i < |j.up| ==> j.up[i].StateAck?
    ensures forall d :: d in j.net && Waiting(j.rep.current, j.net[d]) ==>
              j.net[d].base.generation in j.rep.retained
  {
    hide Core, PacketsOk, FramesOk, ServerOk, Reachable;
    ReachableTight(route, initial, j);
    assert !j.clientError by { NoClientError(j); }
  }

  lemma NoClientError(j: Joint)
    requires Core(j)
    ensures !j.clientError
  {
    hide WindowOk, ReplicaOk, SupplyNewest, LogOk, DownOk, NetOk, BoxOk, UpOk, GateOk, KeyframesOk;
  }

  // ---------------------------------------------------------------- recovery

  function Repeat(e: Event, n: nat): (es: seq<Event>)
    ensures |es| == n && forall i :: 0 <= i < n ==> es[i] == e
  {
    if n == 0 then [] else [e] + Repeat(e, n - 1)
  }

  lemma {:induction false} AfterJoined(j: Joint, a: seq<Event>, b: seq<Event>)
    requires After(j, a).Some?
    ensures After(j, a + b) == After(After(j, a).value, b)
  {
    hide Enabled, Next;
    if b == [] {
      assert a + b == a;
    } else {
      var n := |b| - 1;
      AfterJoined(j, a, b[..n]);
      assert (a + b)[..|a + b| - 1] == a + b[..n];
    }
  }

  lemma AfterNone(j: Joint)
    ensures After(j, []) == Some(j)
  {
    hide Enabled, Next;
  }

  lemma AfterOne(j: Joint, e: Event)
    requires Enabled(j, e)
    ensures After(j, [e]) == Some(Next(j, e))
  {
    hide Enabled, Next;
    assert [e][..0] == [];
    AfterNone(j);
  }

  predicate Live(j: Joint) { Inv(j) && Tight(j) && !j.exited }

  /** Only the channels and the client have changed. */
  predicate SameServer(j: Joint, j': Joint) {
    j'.win == j.win && j'.newest == j.newest && j'.keyframes == j.keyframes && j'.exited == j.exited
  }

  /** Only the channels and the server's bookkeeping have changed; nothing new has been sent. */
  predicate SameClient(j: Joint, j': Joint) {
    && j'.rep == j.rep && j'.down == j.down && j'.newest == j.newest && j'.keyframes == j.keyframes
    && j'.exited == j.exited && (!j.win.HasPending() ==> !j'.win.HasPending())
  }

  /** The client reads every keyframe under way. */
  lemma {:induction false} ClientCatchesUp(j: Joint)
    requires Live(j)
    ensures var r := After(j, Repeat(ClientReceives, |j.down|));
            r.Some? && Live(r.value) && r.value.down == [] && SameServer(j, r.value)
    decreases |j.down|
  {
    hide Live, Next, Enabled, After;
    if j.down == [] {
      AfterNone(j);
    } else {
      OneKeyframe(j);
      var j' := Next(j, ClientReceives);
      ClientCatchesUp(j');
      AfterOne(j, ClientReceives);
      AfterJoined(j, [ClientReceives], Repeat(ClientReceives, |j'.down|));
    }
  }

  lemma OneKeyframe(j: Joint)
    requires j.down != []
    requires Live(j)
    ensures Enabled(j, ClientReceives)
    ensures var j' := Next(j, ClientReceives);
            Live(j') && j'.down == j.down[1..] && SameServer(j, j')
  {
    hide Tight, Core, ReceiveKeyframe;
    NoClientError(j);
    KeyframeReceived(j);
    KeyframeTakenTight(j);
    KeyframeFrame(j.(down := j.down[1..]), j.down[0]);
  }

  lemma KeyframeFrame(j: Joint, s: State)
    ensures var j' := ReceiveKeyframe(j, s); j'.down == j.down && SameServer(j, j')
  {
    hide Replica.ApplyKeyframe, Mailbox.CommitKeyframe;
    var out := j.rep.ApplyKeyframe(s);
    if out.Ok? {
      var (r, d) := out.value;
      var box := j.box.CommitKeyframe(s);
      var m := if d == Applied then j.(rep := r, box := box, log := j.log + [s]) else j.(rep := r);
      assert ReceiveKeyframe(j, s) == ClientAcks(m);
      assert SameServer(j, m) && SameServer(m, ClientAcks(m));
    }
  }

  /** The server reads every control message under way; acknowledgements make it send nothing. */
  lemma {:induction false} ServerCatchesUp(j: Joint)
    requires Live(j)
    ensures var r := After(j, Repeat(ServerReceives, |j.up|));
            r.Some? && Live(r.value) && r.value.up == [] && SameClient(j, r.value)
    decreases |j.up|
  {
    hide Live, Next, Enabled, After;
    if j.up == [] {
      AfterNone(j);
    } else {
      OneAck(j);
      var j' := Next(j, ServerReceives);
      ServerCatchesUp(j');
      AfterOne(j, ServerReceives);
      AfterJoined(j, [ServerReceives], Repeat(ServerReceives, |j'.up|));
    }
  }

  lemma OneAck(j: Joint)
    requires j.up != []
    requires Live(j)
    ensures Enabled(j, ServerReceives)
    ensures var j' := Next(j, ServerReceives);
            Live(j') && j'.up == j.up[1..] && SameClient(j, j')
  {
    hide Core, PacketsOk, FramesOk, ClientOk, ServerOk, ReceiveControl;
    AckReceived(j);
    AckTight(j);
    AckFrame(j);
  }

  lemma AckFrame(j: Joint)
    requires j.up != [] && j.up[0].StateAck?
    requires Core(j) && ServerRuns(j)
    ensures var j' := ReceiveControl(j.(up := j.up[1..]), j.up[0]);
            j'.up == j.up[1..] && SameClient(j, j')
  {
    hide Carries, Known, ReplicaOk, LogOk, BoxOk, KeyframesOk, NetOk, DownOk, GateOk, WindowOk, ValidViewport;
    assert ControlOk(j, j.up[0]);
    AcknowledgeOk(j.win, j.up[0].ack, j.supplied);
  }

  /** With nothing under way, the base is acknowledged, and without a pending update it is the newest state. */
  lemma Quiet(j: Joint)
    requires Live(j) && j.down == [] && j.up == []
    ensures j.win.acked
    ensures !j.win.HasPending() ==> j.rep.current == Some(j.newest)
  {
    hide ReplicaOk, DownOk, NetOk, BoxOk, UpOk, KeyframesOk, Tight, ValidViewport;
    if !j.win.HasPending() {
      var i :| 0 <= i < |j.log| && Id(j.log[i]) == Id(j.win.base);
      LoggedAtMost(j, i);
    }
  }

  /** One exchange: the client reads and acknowledges all keyframes, the server reads the acknowledgements. */
  function Exchange(n: nat, m: nat): seq<Event> {
    Repeat(ClientReceives, n) + Repeat(ServerReceives, m)
  }

  lemma ExchangeSettles(j: Joint) returns (n: nat, m: nat)
    requires Live(j)
    ensures var r := After(j, Exchange(n, m));
            && r.Some? && Live(r.value) && r.value.down == [] && r.value.up == []
            && r.value.newest == j.newest && r.value.keyframes == j.keyframes
            && (!j.win.HasPending() ==> !r.value.win.HasPending())
  {
    hide Live, After, Repeat;
    n := |j.down|;
    ClientCatchesUp(j);
    var j' := After(j, Repeat(ClientReceives, n)).value;
    m := |j'.up|;
    ServerCatchesUp(j');
    AfterJoined(j, Repeat(ClientReceives, n), Repeat(ServerReceives, m));
  }

  /**
    Recovery: from every state that a run can reach before the process exits, one
    exchange, one re-key and a second exchange, without a single datagram, leave the
    client with the newest state the engine supplied, nothing pending and nothing under way.
   */
  lemma Recoverable(route: Route, initial: State, j: Joint) returns (n: nat, m: nat, n': nat, m': nat)
    requires Reachable(route, initial, j) && !j.exited
    ensures var r := After(j, Exchange(n, m) + [Rekey] + Exchange(n', m'));
            && r.Some?
            && r.value.rep.current == Some(j.newest)
            && r.value.win.acked && !r.value.win.HasPending()
            && r.value.down == [] && r.value.up == []
            && |r.value.keyframes| <= |j.keyframes| + 1
  {
    hide Inv, Tight, Reachable, Next, Enabled, After, Exchange;
    ReachableTight(route, initial, j);
    n, m := ExchangeSettles(j);
    var j1 := After(j, Exchange(n, m)).value;
    Quiet(j1);
    RekeyStep(j1);
    var j2 := Next(j1, Rekey);
    n', m' := ExchangeSettles(j2);
    var j3 := After(j2, Exchange(n', m')).value;
    Quiet(j3);
    AfterOne(j1, Rekey);
    AfterJoined(j, Exchange(n, m), [Rekey]);
    AfterJoined(j, Exchange(n, m) + [Rekey], Exchange(n', m'));
  }

  lemma RekeyStep(j: Joint)
    requires Live(j) && j.win.acked
    ensures Enabled(j, Rekey)
    ensures var j' := Next(j, Rekey);
            Live(j') && !j'.win.HasPending() && j'.newest == j.newest && |j'.keyframes| <= |j.keyframes| + 1
  {
    hide ReplicaOk, DownOk, NetOk, BoxOk, UpOk, KeyframesOk, WindowOk, LogOk, GateOk, PacketsOk, FramesOk, ClientOk,
        ServerOk, ValidViewport;
    RekeyLatestOk(j.win, j.supplied);
    TimerOk(j, Rekey);
    TimerTight(j, Rekey);
  }
}
