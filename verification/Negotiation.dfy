/**
  Capability negotiation (src/negotiation.rs): the server intersects what both sides
  offer, drops what lacks a dependency, and client and worker check the selection again.
 */
module Negotiation {
  import opened Basics

  const MAX_CAPABILITIES: nat := 64
  const MAX_CAPABILITY_NAME_BYTES: nat := 64

  const SEMANTIC_STATE := "terminal.semantic_state"
  const HISTORY_PAGING := "terminal.history_paging"
  const DATAGRAM_STATE := "terminal.datagram_state"
  const STATE_ACK := "terminal.state_ack"
  const SEMANTIC_DIFF := "terminal.semantic_diff"
  const CLIPBOARD_WRITE := "terminal.clipboard_write"
  const SESSION_OBJECTS := "session.objects"
  const INPUT_RESUME := "terminal.input_resume"
  const INPUT_LEASE := "terminal.input_lease"
  const TCP_FORWARD := "forward.tcp"
  const STREAM_CHANNELS := "transport.stream_channels"

  /** A capability with the versions that one side supports. */
  datatype Offer = Offer(name: string, minimum: nat, maximum: nat)

  datatype Support = Support(minimum: nat, maximum: nat, capabilities: seq<Offer>)

  datatype Hello = Hello(protocolVersion: nat, minimum: nat, maximum: nat, capabilities: seq<Offer>)

  datatype Selection = Selection(name: string, version: nat)

  type Capabilities = map<string, nat>

  datatype Negotiated = Negotiated(version: nat, capabilities: Capabilities)

  // ---------------------------------------------------------------- dependencies

  predicate SemanticV2(m: Capabilities) {
    SEMANTIC_STATE in m && m[SEMANTIC_STATE] >= 2
  }

  /** `validate_capability_dependencies`. */
  predicate Closed(m: Capabilities) {
    && (TCP_FORWARD in m ==> STREAM_CHANNELS in m)
    && (CLIPBOARD_WRITE in m ==> SemanticV2(m))
    && (HISTORY_PAGING in m ==> SemanticV2(m))
    && (STATE_ACK in m ==> SemanticV2(m))
    && (SEMANTIC_DIFF in m ==> STATE_ACK in m && SemanticV2(m))
    && (DATAGRAM_STATE in m ==> STATE_ACK in m && SESSION_OBJECTS in m && SemanticV2(m))
    && (INPUT_LEASE in m ==> SESSION_OBJECTS in m)
    && (INPUT_RESUME in m ==> INPUT_LEASE in m)
  }

  function Keep(m: Capabilities, name: string, condition: bool): Capabilities {
    if condition then m else m - {name}
  }

  /** The removals of `negotiate_client_hello`, in its order. */
  function Pruned(m: Capabilities): Capabilities {
    var m1 := Keep(m, CLIPBOARD_WRITE, SemanticV2(m));
    var m2 := Keep(m1, HISTORY_PAGING, SemanticV2(m1));
    var m3 := Keep(m2, STATE_ACK, SemanticV2(m2));
    var m4 := Keep(m3, SEMANTIC_DIFF, STATE_ACK in m3 && SemanticV2(m3));
    var m5 := Keep(m4, DATAGRAM_STATE, STATE_ACK in m4 && SESSION_OBJECTS in m4 && SemanticV2(m4));
    var m6 := Keep(m5, INPUT_LEASE, SESSION_OBJECTS in m5);
    var m7 := Keep(m6, INPUT_RESUME, INPUT_LEASE in m6);
    Keep(m7, TCP_FORWARD, STREAM_CHANNELS in m7)
  }

  /** m assigns each of its capabilities a version that n assigns too, or a lower one. */
  predicate Below(m: Capabilities, n: Capabilities) {
    forall name :: name in m ==> name in n && m[name] <= n[name]
  }

  /** One removal is safe if no closed selection below m can have the capability. */
  lemma KeepsAllClosed(a: Capabilities, m: Capabilities, name: string, condition: bool)
    requires Below(a, m) && (!condition ==> name !in a)
    ensures Below(a, Keep(m, name, condition))
  {
  }

  lemma NeedsSemantic(a: Capabilities, m: Capabilities)
    requires Below(a, m) && SemanticV2(a)
    ensures SemanticV2(m)
  {
  }

  /**
    Pruning yields the greatest dependency-closed selection: it is closed, it takes its versions from
    m, and every closed selection whose versions are available in m lies below it.
   */
  lemma PrunedIsGreatest(m: Capabilities, a: Capabilities)
    ensures Closed(Pruned(m)) && Pruned(m).Keys <= m.Keys
    ensures forall name :: name in Pruned(m) ==> Pruned(m)[name] == m[name]
    ensures Closed(a) && Below(a, m) ==> Below(a, Pruned(m))
  {
    Names();
    if Closed(a) && Below(a, m) {
      BelowPruned(m, a);
    }
  }

  lemma BelowPruned(m: Capabilities, a: Capabilities)
    requires Closed(a) && Below(a, m)
    ensures Below(a, Pruned(m))
  {
    hide Below, Keep;
    if SemanticV2(a) { NeedsSemantic(a, m); }
    KeepsAllClosed(a, m, CLIPBOARD_WRITE, SemanticV2(m));
    var m1 := Keep(m, CLIPBOARD_WRITE, SemanticV2(m));
    if SemanticV2(a) { NeedsSemantic(a, m1); }
    KeepsAllClosed(a, m1, HISTORY_PAGING, SemanticV2(m1));
    var m2 := Keep(m1, HISTORY_PAGING, SemanticV2(m1));
    if SemanticV2(a) { NeedsSemantic(a, m2); }
    KeepsAllClosed(a, m2, STATE_ACK, SemanticV2(m2));
    var m3 := Keep(m2, STATE_ACK, SemanticV2(m2));
    if SemanticV2(a) { NeedsSemantic(a, m3); }
    Present(a, m3, STATE_ACK);
    KeepsAllClosed(a, m3, SEMANTIC_DIFF, STATE_ACK in m3 && SemanticV2(m3));
    var m4 := Keep(m3, SEMANTIC_DIFF, STATE_ACK in m3 && SemanticV2(m3));
    if SemanticV2(a) { NeedsSemantic(a, m4); }
    Present(a, m4, STATE_ACK);
    Present(a, m4, SESSION_OBJECTS);
    KeepsAllClosed(a, m4, DATAGRAM_STATE, STATE_ACK in m4 && SESSION_OBJECTS in m4 && SemanticV2(m4));
    var m5 := Keep(m4, DATAGRAM_STATE, STATE_ACK in m4 && SESSION_OBJECTS in m4 && SemanticV2(m4));
    Present(a, m5, SESSION_OBJECTS);
    KeepsAllClosed(a, m5, INPUT_LEASE, SESSION_OBJECTS in m5);
    var m6 := Keep(m5, INPUT_LEASE, SESSION_OBJECTS in m5);
    Present(a, m6, INPUT_LEASE);
    KeepsAllClosed(a, m6, INPUT_RESUME, INPUT_LEASE in m6);
    var m7 := Keep(m6, INPUT_RESUME, INPUT_LEASE in m6);
    Present(a, m7, STREAM_CHANNELS);
    KeepsAllClosed(a, m7, TCP_FORWARD, STREAM_CHANNELS in m7);
  }

  lemma Present(a: Capabilities, m: Capabilities, name: string)
    requires Below(a, m)
    ensures name in a ==> name in m
  {
  }

  /** The capability names differ. */
  lemma Names()
    ensures SEMANTIC_STATE !in {CLIPBOARD_WRITE, HISTORY_PAGING, STATE_ACK, SEMANTIC_DIFF, DATAGRAM_STATE, INPUT_LEASE,
                                INPUT_RESUME, TCP_FORWARD}
    ensures SESSION_OBJECTS !in {INPUT_LEASE, INPUT_RESUME, TCP_FORWARD, DATAGRAM_STATE}
    ensures STATE_ACK !in {SEMANTIC_DIFF, DATAGRAM_STATE, INPUT_LEASE, INPUT_RESUME, TCP_FORWARD}
    ensures INPUT_LEASE !in {INPUT_RESUME, TCP_FORWARD} && STREAM_CHANNELS != TCP_FORWARD
  {
    assert |SEMANTIC_STATE| == 23 && |CLIPBOARD_WRITE| == 24 && |HISTORY_PAGING| == 23 && |STATE_ACK| == 18;
    assert |SEMANTIC_DIFF| == 22 && |DATAGRAM_STATE| == 23 && |INPUT_LEASE| == 20 && |INPUT_RESUME| == 21;
    assert |TCP_FORWARD| == 11 && |SESSION_OBJECTS| == 15 && |STREAM_CHANNELS| == 25;
    assert SEMANTIC_STATE[9] == 's' && HISTORY_PAGING[9] == 'h' && DATAGRAM_STATE[9] == 'd';
  }

  // ---------------------------------------------------------------- offers and version ranges

  predicate ValidName(name: string) {
    && 0 < |name| <= MAX_CAPABILITY_NAME_BYTES
    && forall i :: 0 <= i < |name| ==>
         'a' <= name[i] <= 'z' || '0' <= name[i] <= '9' || name[i] == '.' || name[i] == '_'
  }

  predicate ValidOffer(o: Offer) {
    ValidName(o.name) && 0 < o.minimum <= o.maximum
  }

  predicate Distinct(offers: seq<Offer>) {
    forall i, j :: 0 <= i < j < |offers| ==> offers[i].name != offers[j].name
  }

  predicate ValidOffers(offers: seq<Offer>) {
    && |offers| <= MAX_CAPABILITIES
    && (forall i :: 0 <= i < |offers| ==> ValidOffer(offers[i]))
    && Distinct(offers)
  }

  /** The table lists exactly the offers. */
  predicate Tabulates(table: map<string, (nat, nat)>, offers: seq<Offer>) {
    && (forall i :: 0 <= i < |offers| ==>
          offers[i].name in table && table[offers[i].name] == (offers[i].minimum, offers[i].maximum))
    && (forall name :: name in table ==> exists i :: 0 <= i < |offers| && offers[i].name == name)
  }

  /** `validate_offers` (and the same checks in `validate_support`). */
  method TabulateOffers(offers: seq<Offer>) returns (table: Option<map<string, (nat, nat)>>)
    ensures table.Some? <==> ValidOffers(offers)
    ensures table.Some? ==> Tabulates(table.value, offers)
  {
    if |offers| > MAX_CAPABILITIES {
      return None;
    }
    var t: map<string, (nat, nat)> := map[];
    var i := 0;
    while i < |offers|
      invariant i <= |offers|
      invariant forall j :: 0 <= j < i ==> ValidOffer(offers[j])
      invariant Distinct(offers[..i])
      invariant Tabulates(t, offers[..i])
    {
      var o := offers[i];
      if !ValidOffer(o) {
        return None;
      }
      if o.name in t {
        var j :| 0 <= j < |offers[..i]| && offers[..i][j].name == o.name;
        assert offers[j].name == offers[i].name;
        return None;
      }
      ghost var before := t;
      t := t[o.name := (o.minimum, o.maximum)];
      OneMore(before, offers[..i], o);
      assert offers[..i + 1] == offers[..i] + [o];
      i := i + 1;
    }
    assert offers[..i] == offers;
    table := Some(t);
  }

  lemma OneMore(t: map<string, (nat, nat)>, offers: seq<Offer>, o: Offer)
    requires Distinct(offers) && Tabulates(t, offers) && o.name !in t
    ensures Distinct(offers + [o]) && Tabulates(t[o.name := (o.minimum, o.maximum)], offers + [o])
  {
    var more, t' := offers + [o], t[o.name := (o.minimum, o.maximum)];
    forall name | name in t' ensures exists i :: 0 <= i < |more| && more[i].name == name {
      if name == o.name {
        assert more[|offers|].name == name;
      } else {
        var i :| 0 <= i < |offers| && offers[i].name == name;
        assert more[i].name == name;
      }
    }
  }

  function HelloRange(h: Hello): Option<(nat, nat)> {
    if h.minimum == 0 && h.maximum == 0 then
      if h.protocolVersion > 0 then Some((h.protocolVersion, h.protocolVersion)) else None
    else if 0 < h.minimum <= h.maximum && h.minimum <= h.protocolVersion <= h.maximum
    then Some((h.minimum, h.maximum)) else None
  }

  predicate ValidSupport(s: Support) {
    0 < s.minimum <= s.maximum && ValidOffers(s.capabilities)
  }

  function Max(a: nat, b: nat): nat {
    if a < b then b else a
  }

  /** Both sides support the capability in this version. */
  predicate CommonVersion(client: seq<Offer>, server: seq<Offer>, name: string, version: nat) {
    && (exists i :: 0 <= i < |client| && client[i].name == name && client[i].minimum <= version <= client[i].maximum)
    && (exists i :: 0 <= i < |server| && server[i].name == name && server[i].minimum <= version <= server[i].maximum)
  }

  /** m lists every capability with a common version, at the highest one. */
  ghost predicate HighestCommon(m: Capabilities, client: seq<Offer>, server: seq<Offer>) {
    && (forall name :: name in m ==> CommonVersion(client, server, name, m[name]))
    && (forall i, v :: 0 <= i < |server| && CommonVersion(client, server, server[i].name, v) ==>
          server[i].name in m && v <= m[server[i].name])
  }

  /** A selection whose versions are supported on both sides. */
  ghost predicate Offered(m: Capabilities, client: seq<Offer>, server: seq<Offer>) {
    forall name :: name in m ==> CommonVersion(client, server, name, m[name])
  }

  /**
    What both sides should arrive at: a dependency-closed selection of supported versions that lies
    above every other such selection, so every capability is at its highest common version.
   */
  ghost predicate Agreed(m: Capabilities, client: seq<Offer>, server: seq<Offer>) {
    && Closed(m) && Offered(m, client, server)
    && (forall name, v :: name in m && CommonVersion(client, server, name, v) ==> v <= m[name])
    && (forall a :: Closed(a) && Offered(a, client, server) ==> Below(a, m))
  }

  lemma PrunedIsAgreed(m: Capabilities, client: seq<Offer>, server: seq<Offer>)
    requires HighestCommon(m, client, server)
    ensures Agreed(Pruned(m), client, server)
  {
    hide Closed, Pruned, Below, CommonVersion;
    PrunedIsGreatest(m, m);
    forall a | Closed(a) && Offered(a, client, server) ensures Below(a, Pruned(m)) {
      OfferedIsBelow(a, m, client, server);
      PrunedIsGreatest(m, a);
    }
    forall name, v | name in Pruned(m) && CommonVersion(client, server, name, v) ensures v <= Pruned(m)[name] {
      IsListed(m, client, server, name, v);
    }
  }

  lemma IsListed(m: Capabilities, client: seq<Offer>, server: seq<Offer>, name: string, v: nat)
    requires HighestCommon(m, client, server) && CommonVersion(client, server, name, v)
    ensures name in m && v <= m[name]
  {
    var i :| 0 <= i < |server| && server[i].name == name && server[i].minimum <= v <= server[i].maximum;
    assert CommonVersion(client, server, server[i].name, v);
  }

  lemma OfferedIsBelow(a: Capabilities, m: Capabilities, client: seq<Offer>, server: seq<Offer>)
    requires HighestCommon(m, client, server) && Offered(a, client, server)
    ensures Below(a, m)
  {
    hide CommonVersion;
    forall name | name in a ensures name in m && a[name] <= m[name] {
      IsListed(m, client, server, name, a[name]);
    }
  }

  lemma PrunedIsSmall(m: Capabilities, n: nat)
    requires |m| <= n
    ensures |Pruned(m)| <= n
  {
    hide Pruned;
    PrunedIsGreatest(m, m);
    assert m.Keys == Pruned(m).Keys + (m.Keys - Pruned(m).Keys);
  }

  /** `negotiate_client_hello`. */
  method Negotiate(hello: Hello, server: Support) returns (r: Option<Negotiated>)
    ensures r.Some? <==>
              && ValidSupport(server) && ValidOffers(hello.capabilities) && HelloRange(hello).Some?
              && Max(HelloRange(hello).value.0, server.minimum) <= Min(HelloRange(hello).value.1, server.maximum)
    ensures r.Some? ==>
              && r.value.version == Min(HelloRange(hello).value.1, server.maximum)
              && Agreed(r.value.capabilities, hello.capabilities, server.capabilities)
              && |r.value.capabilities| <= MAX_CAPABILITIES
  {
    hide Agreed, Pruned, HighestCommon;
    if !(0 < server.minimum <= server.maximum) {
      return None;
    }
    var supported := TabulateOffers(server.capabilities);
    if supported.None? {
      return None;
    }
    var range := HelloRange(hello);
    if range.None? || Max(range.value.0, server.minimum) > Min(range.value.1, server.maximum) {
      return None;
    }
    var offered := TabulateOffers(hello.capabilities);
    if offered.None? {
      return None;
    }
    var m := Intersect(hello.capabilities, offered.value, server.capabilities);
    PrunedIsAgreed(m, hello.capabilities, server.capabilities);
    PrunedIsSmall(m, |server.capabilities|);
    r := Some(Negotiated(Min(range.value.1, server.maximum), Pruned(m)));
  }

  /** HighestCommon for the first n capabilities of the server. */
  ghost predicate CommonSoFar(m: Capabilities, client: seq<Offer>, server: seq<Offer>, n: nat)
    requires n <= |server|
  {
    && (forall name :: name in m ==> CommonVersion(client, server, name, m[name]))
    && (forall name :: name in m ==> exists j :: 0 <= j < n && server[j].name == name)
    && (forall j, v :: 0 <= j < n && CommonVersion(client, server, server[j].name, v) ==>
          server[j].name in m && v <= m[server[j].name])
  }

  /** The loop over the server's capabilities. */
  method Intersect(ghost client: seq<Offer>, offered: map<string, (nat, nat)>,
      server: seq<Offer>) returns (m: Capabilities)
    requires ValidOffers(client) && ValidOffers(server) && Tabulates(offered, client)
    ensures HighestCommon(m, client, server) && |m| <= |server|
  {
    hide Tabulates, ValidOffers, CommonSoFar, HighestCommon;
    m := map[];
    assert CommonSoFar(m, client, server, 0) by { NothingCommonYet(client, server); }
    var i := 0;
    while i < |server|
      invariant i <= |server| && |m| <= i
      invariant CommonSoFar(m, client, server, i)
    {
      var s := server[i];
      ghost var version: Option<nat> := None;
      ghost var before := m;
      if s.name in offered {
        var low, high := Max(offered[s.name].0, s.minimum), Min(offered[s.name].1, s.maximum);
        CommonIs(client, offered, server, i);
        if low <= high {
          m := m[s.name := high];
          version := Some(high);
        }
      } else {
        NotCommon(client, offered, server, i);
      }
      CommonStep(before, client, server, i, version);
      i := i + 1;
    }
    CommonDone(m, client, server);
  }

  lemma NothingCommonYet(client: seq<Offer>, server: seq<Offer>)
    ensures CommonSoFar(map[], client, server, 0)
  {
  }

  lemma CommonDone(m: Capabilities, client: seq<Offer>, server: seq<Offer>)
    requires CommonSoFar(m, client, server, |server|)
    ensures HighestCommon(m, client, server)
  {
  }

  lemma CommonStep(m: Capabilities, client: seq<Offer>, server: seq<Offer>, i: nat, version: Option<nat>)
    requires ValidOffers(server) && i < |server| && CommonSoFar(m, client, server, i)
    requires version.None? ==> forall v: nat :: !CommonVersion(client, server, server[i].name, v)
    requires version.Some? ==>
               && CommonVersion(client, server, server[i].name, version.value)
               && forall v: nat :: CommonVersion(client, server, server[i].name, v) ==> v <= version.value
    ensures CommonSoFar(if version.Some? then m[server[i].name := version.value] else m, client, server, i + 1)
  {
    hide CommonVersion;
    var m' := if version.Some? then m[server[i].name := version.value] else m;
    forall name | name in m' ensures exists j :: 0 <= j < i + 1 && server[j].name == name {
      if name in m {
        var j :| 0 <= j < i && server[j].name == name;
        assert server[j].name == name;
      } else {
        assert server[i].name == name;
      }
    }
    forall j, v: nat | 0 <= j < i + 1 && CommonVersion(client, server, server[j].name, v)
      ensures server[j].name in m' && v <= m'[server[j].name]
    {
      if j < i {
        assert server[j].name != server[i].name;
      }
    }
  }

  lemma CommonIs(client: seq<Offer>, offered: map<string, (nat, nat)>, server: seq<Offer>, i: nat)
    requires ValidOffers(client) && ValidOffers(server) && Tabulates(offered, client)
    requires i < |server| && server[i].name in offered
    ensures var o := offered[server[i].name];
            forall v: nat :: CommonVersion(client, server, server[i].name, v) <==>
                               Max(o.0, server[i].minimum) <= v <= Min(o.1, server[i].maximum)
  {
    hide ValidOffer;
    var name := server[i].name;
    var o := offered[name];
    var c :| 0 <= c < |client| && client[c].name == name;
    forall v: nat
      ensures CommonVersion(client, server, name, v) <==> Max(o.0, server[i].minimum) <= v <= Min(o.1,
          server[i].maximum)
    {
      if CommonVersion(client, server, name, v) {
        var a :| 0 <= a < |client| && client[a].name == name && client[a].minimum <= v <= client[a].maximum;
        var b :| 0 <= b < |server| && server[b].name == name && server[b].minimum <= v <= server[b].maximum;
        assert a == c && b == i;
      }
    }
  }

  lemma NotCommon(client: seq<Offer>, offered: map<string, (nat, nat)>, server: seq<Offer>, i: nat)
    requires Tabulates(offered, client) && i < |server| && server[i].name !in offered
    ensures forall v: nat :: !CommonVersion(client, server, server[i].name, v)
  {
  }

  // ---------------------------------------------------------------- checking a selection again

  /** The selection lists every capability once.  The source lists them in name order. */
  predicate Lists(sel: seq<Selection>, m: Capabilities) {
    && |sel| == |m|
    && (forall i :: 0 <= i < |sel| ==> sel[i].name in m && m[sel[i].name] == sel[i].version)
    && (forall name :: name in m ==> exists i :: 0 <= i < |sel| && sel[i].name == name)
    && Once(sel)
  }

  predicate Once(sel: seq<Selection>) {
    forall i, j :: 0 <= i < j < |sel| ==> sel[i].name != sel[j].name
  }

  method Selections(m: Capabilities) returns (sel: seq<Selection>)
    ensures Lists(sel, m)
  {
    sel := [];
    var left := m.Keys;
    while left != {}
      invariant left <= m.Keys && |sel| + |left| == |m|
      invariant forall i :: 0 <= i < |sel| ==>
                  sel[i].name in m && sel[i].name !in left && m[sel[i].name] == sel[i].version
      invariant forall name :: name in m ==> name in left || exists i :: 0 <= i < |sel| && sel[i].name == name
      invariant Once(sel)
      decreases |left|
    {
      var name :| name in left;
      var longer := sel + [Selection(name, m[name])];
      forall n | n in m ensures n in left - {name} || exists i :: 0 <= i < |longer| && longer[i].name == n {
        if n == name {
          assert longer[|sel|].name == n;
        } else if n !in left {
          var i :| 0 <= i < |sel| && sel[i].name == n;
          assert longer[i].name == n;
        }
      }
      sel := longer;
      left := left - {name};
    }
  }

  /** The map that inserting the selections one by one builds. */
  function Table(sel: seq<Selection>): Capabilities {
    if sel == [] then map[]
    else Table(sel[..|sel| - 1])[sel[|sel| - 1].name := sel[|sel| - 1].version]
  }

  lemma {:induction false} TableHas(sel: seq<Selection>)
    ensures forall name :: name in Table(sel) <==> exists i :: 0 <= i < |sel| && sel[i].name == name
    ensures Once(sel) ==> forall i :: 0 <= i < |sel| ==> Table(sel)[sel[i].name] == sel[i].version
  {
    if sel != [] {
      var fore, last := sel[..|sel| - 1], sel[|sel| - 1];
      TableHas(fore);
      forall name | name in Table(sel) ensures exists i :: 0 <= i < |sel| && sel[i].name == name {
        if name == last.name {
          assert sel[|sel| - 1].name == name;
        } else {
          assert name in Table(fore);
          var i :| 0 <= i < |fore| && fore[i].name == name;
          assert sel[i].name == name;
        }
      }
      forall i | 0 <= i < |sel| ensures sel[i].name in Table(sel) {
        if i < |fore| {
          assert fore[i].name == sel[i].name;
        }
      }
      if Once(sel) {
        forall i | 0 <= i < |sel| ensures Table(sel)[sel[i].name] == sel[i].version {
          if i < |fore| {
            assert fore[i] == sel[i];
          }
        }
      }
    }
  }

  lemma ListedTable(sel: seq<Selection>, m: Capabilities)
    requires Lists(sel, m)
    ensures Table(sel) == m
  {
    hide Table;
    TableHas(sel);
    forall name | name in m ensures name in Table(sel) && Table(sel)[name] == m[name] {
      var i :| 0 <= i < |sel| && sel[i].name == name;
      assert Table(sel)[sel[i].name] == sel[i].version;
    }
    forall name | name in Table(sel) ensures name in m {
      var i :| 0 <= i < |sel| && sel[i].name == name;
    }
  }

  /** The selected version is one that the offers contain. */
  predicate Within(offers: seq<Offer>, s: Selection) {
    exists i :: 0 <= i < |offers| && offers[i].name == s.name && offers[i].minimum <= s.version <= offers[i].maximum
  }

  predicate ValidSelections(offers: seq<Offer>, sel: seq<Selection>) {
    && |sel| <= MAX_CAPABILITIES
    && (forall i :: 0 <= i < |sel| ==> ValidName(sel[i].name) && Within(offers, sel[i]))
    && Once(sel) && Closed(Table(sel))
  }

  lemma OnceNone(sel: seq<Selection>)
    ensures Once(sel[..0])
  {
  }

  lemma OnceMore(sel: seq<Selection>, n: nat)
    requires n < |sel| && Once(sel[..n]) && sel[n].name !in Table(sel[..n])
    ensures Once(sel[..n + 1])
  {
    hide Table;
    TableHas(sel[..n]);
    forall j | 0 <= j < n ensures sel[j].name != sel[n].name {
      assert sel[..n][j].name == sel[j].name;
    }
  }

  lemma Repeated(sel: seq<Selection>, n: nat)
    requires n < |sel| && sel[n].name in Table(sel[..n])
    ensures !Once(sel)
  {
    hide Table;
    TableHas(sel[..n]);
    var j :| 0 <= j < |sel[..n]| && sel[..n][j].name == sel[n].name;
    assert sel[j].name == sel[n].name;
  }

  method CheckSelections(offers: seq<Offer>, sel: seq<Selection>) returns (m: Option<Capabilities>)
    requires ValidOffers(offers)
    ensures m.Some? <==> ValidSelections(offers, sel)
    ensures m.Some? ==> m.value == Table(sel)
  {
    hide Closed, ValidName, Within, ValidOffers, Once;
    if |sel| > MAX_CAPABILITIES {
      return None;
    }
    var t: Capabilities := map[];
    var i := 0;
    assert Once(sel[..0]) by { OnceNone(sel); }
    while i < |sel|
      invariant i <= |sel| && t == Table(sel[..i]) && Once(sel[..i])
      invariant forall j :: 0 <= j < i ==> ValidName(sel[j].name) && Within(offers, sel[j])
    {
      if !ValidName(sel[i].name) || !Within(offers, sel[i]) {
        return None;
      }
      if sel[i].name in t {
        Repeated(sel, i);
        return None;
      }
      t := t[sel[i].name := sel[i].version];
      assert sel[..i + 1][..i] == sel[..i];
      OnceMore(sel, i);
      i := i + 1;
    }
    assert sel[..i] == sel;
    m := if Closed(t) then Some(t) else None;
  }

  predicate ServerHelloOk(client: Hello, version: nat, sel: seq<Selection>) {
    && HelloRange(client).Some? && HelloRange(client).value.0 <= version <= HelloRange(client).value.1
    && ValidOffers(client.capabilities) && ValidSelections(client.capabilities, sel)
  }

  predicate WorkerOk(version: nat, sel: seq<Selection>, support: Support) {
    && ValidSupport(support) && support.minimum <= version <= support.maximum
    && ValidSelections(support.capabilities, sel)
  }

  /** `validate_server_hello`. */
  method ValidateServerHello(client: Hello, version: nat, sel: seq<Selection>) returns (r: Option<Negotiated>)
    ensures r == if ServerHelloOk(client, version, sel) then Some(Negotiated(version, Table(sel))) else None
  {
    var range := HelloRange(client);
    if range.None? || !(range.value.0 <= version <= range.value.1) {
      return None;
    }
    var offers := TabulateOffers(client.capabilities);
    if offers.None? {
      return None;
    }
    var m := CheckSelections(client.capabilities, sel);
    r := if m.Some? then Some(Negotiated(version, m.value)) else None;
  }

  /** `validate_worker_selection`. */
  method ValidateWorkerSelection(version: nat, sel: seq<Selection>, support: Support) returns (r: Option<Negotiated>)
    ensures r == if WorkerOk(version, sel, support) then Some(Negotiated(version, Table(sel))) else None
  {
    if !(0 < support.minimum <= support.maximum) {
      return None;
    }
    var supported := TabulateOffers(support.capabilities);
    if supported.None? || !(support.minimum <= version <= support.maximum) {
      return None;
    }
    var m := CheckSelections(support.capabilities, sel);
    r := if m.Some? then Some(Negotiated(version, m.value)) else None;
  }

  /**
    Three-way agreement: whatever the server negotiates, its selection is accepted by the client and by
    the worker, and both arrive at exactly the server's result.
   */
  lemma ThreeWayAgreement(hello: Hello, server: Support, n: Negotiated, sel: seq<Selection>)
    requires ValidSupport(server) && ValidOffers(hello.capabilities) && HelloRange(hello).Some?
    requires Max(HelloRange(hello).value.0, server.minimum) <= Min(HelloRange(hello).value.1, server.maximum)
    requires n.version == Min(HelloRange(hello).value.1, server.maximum)
    requires Agreed(n.capabilities, hello.capabilities, server.capabilities) && |n.capabilities| <= MAX_CAPABILITIES
    requires Lists(sel, n.capabilities)
    ensures ServerHelloOk(hello, n.version, sel) && WorkerOk(n.version, sel, server)
    ensures Negotiated(n.version, Table(sel)) == n
  {
    hide Closed, Table, ValidName, Below;
    ListedTable(sel, n.capabilities);
    forall i | 0 <= i < |sel|
      ensures ValidName(sel[i].name) && Within(hello.capabilities, sel[i]) && Within(server.capabilities, sel[i])
    {
      assert CommonVersion(hello.capabilities, server.capabilities, sel[i].name, sel[i].version);
    }
  }

  /** Two parties with the same offers negotiate the same capabilities: the agreed selection is unique. */
  lemma AgreementIsUnique(m: Capabilities, n: Capabilities, client: seq<Offer>, server: seq<Offer>)
    requires Agreed(m, client, server) && Agreed(n, client, server)
    ensures m == n
  {
    hide Closed, CommonVersion;
    assert Below(m, n) && Below(n, m);
  }
}
