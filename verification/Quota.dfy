/**
  Layered resource quotas (src/resources.rs): every reservation is taken from a global
  pool and from the user's pool, one lock at a time, and given back when it is dropped.
 */
module Quota {
  import opened Basics

  const WIDTH: nat := 12

  /**
    A claim is the vector of its twelve dimensions, each an unsigned 64-bit counter: connections,
    streams, workers, terminals, attachments, terminal memory, history, forwarded connections,
    forward buffers, file handles, uploads and upload bytes.
   */
  type Claim = c: seq<nat> | |c| == WIDTH witness [0, 0, 0, 0, 0, 0, 0, 0, 0, 0, 0, 0]

  const ZERO: Claim := [0, 0, 0, 0, 0, 0, 0, 0, 0, 0, 0, 0]

  function Plus(a: Claim, b: Claim): Claim {
    seq(WIDTH, i requires 0 <= i < WIDTH => a[i] + b[i])
  }

  /** a - b, where b is part of a. */
  function Minus(a: Claim, b: Claim): Claim
    requires AtMost(b, a)
  {
    seq(WIDTH, i requires 0 <= i < WIDTH => a[i] - b[i])
  }

  predicate AtMost(a: Claim, b: Claim) {
    forall i :: 0 <= i < WIDTH ==> a[i] <= b[i]
  }

  predicate Counters(a: Claim) {
    forall i :: 0 <= i < WIDTH ==> a[i] <= MAX_U64
  }

  function CheckedAdd(a: Claim, b: Claim): Option<Claim> {
    if Counters(Plus(a, b)) then Some(Plus(a, b)) else None
  }

  function CheckedSub(a: Claim, b: Claim): Option<Claim> {
    if AtMost(b, a) then Some(Minus(a, b)) else None
  }

  /** Which limit a refused claim ran into; `Counter` is the 64-bit counter itself. */
  datatype Refusal = Counter | Exceeded(resource: nat, requested: nat, current: nat, limit: nat)

  /** A claim fits if every dimension stays within its limit. */
  predicate Fits(usage: Claim, limits: Claim, claim: Claim) {
    Counters(Plus(usage, claim)) && AtMost(Plus(usage, claim), limits)
  }

  class ResourcePool {
    const limits: Claim
    var usage: Claim

    constructor (l: Claim)
      ensures limits == l && usage == ZERO
    {
      limits, usage := l, ZERO;
    }

    /** Takes the claim or says which dimension is exhausted first. */
    method Reserve(claim: Claim) returns (refusal: Option<Refusal>)
      modifies this
      ensures refusal.None? <==> Fits(old(usage), limits, claim)
      ensures usage == if refusal.None? then Plus(old(usage), claim) else old(usage)
      ensures refusal.Some? && refusal.value.Exceeded? ==>
                var r := refusal.value;
                && r.resource < WIDTH && r.requested == claim[r.resource] && r.current == usage[r.resource]
                && r.limit == limits[r.resource] && r.current + r.requested > r.limit
                && forall i :: 0 <= i < r.resource ==> usage[i] + claim[i] <= limits[i]
    {
      var next := CheckedAdd(usage, claim);
      if next.None? {
        return Some(Counter);
      }
      var i := 0;
      while i < WIDTH
        invariant i <= WIDTH
        invariant forall j :: 0 <= j < i ==> usage[j] + claim[j] <= limits[j]
      {
        if next.value[i] > limits[i] {
          return Some(Exceeded(i, claim[i], usage[i], limits[i]));
        }
        i := i + 1;
      }
      usage := next.value;
      refusal := None;
    }

    /** Dropping a reservation: the claim must be part of the usage. */
    method Release(claim: Claim)
      requires AtMost(claim, usage)
      modifies this
      ensures usage == Minus(old(usage), claim)
    {
      var left := CheckedSub(usage, claim);
      usage := left.value;
    }
  }

  predicate Distinct(pools: seq<ResourcePool>) {
    forall i, j :: 0 <= i < j < |pools| ==> pools[i] != pools[j]
  }

  /**
    `ResourceAccount::reserve`: pool after pool, and if one refuses, those already taken are
    dropped again.  All or nothing, and it succeeds exactly if every pool has room.
   */
  method ReserveAll(pools: seq<ResourcePool>, claim: Claim) returns (refusal: Option<Refusal>)
    requires Distinct(pools)
    modifies pools
    ensures refusal.None? <==> forall i :: 0 <= i < |pools| ==> Fits(old(pools[i].usage), pools[i].limits, claim)
    ensures forall i :: 0 <= i < |pools| ==>
              pools[i].usage == if refusal.None? then Plus(old(pools[i].usage), claim) else old(pools[i].usage)
  {
    refusal := None;
    var n := 0;
    while n < |pools|
      invariant n <= |pools| && refusal == None
      invariant forall i :: 0 <= i < n ==> pools[i].usage == Plus(old(pools[i].usage), claim)
      invariant forall i :: 0 <= i < n ==> Fits(old(pools[i].usage), pools[i].limits, claim)
      invariant forall i :: n <= i < |pools| ==> pools[i].usage == old(pools[i].usage)
    {
      refusal := pools[n].Reserve(claim);
      if refusal.Some? {
        RollBack(pools, n, claim);
        forall i | 0 <= i < n ensures pools[i].usage == old(pools[i].usage) {
          PlusMinus(old(pools[i].usage), claim);
        }
        return;
      }
      n := n + 1;
    }
  }

  /** Drops the first n reservations, oldest first. */
  method RollBack(pools: seq<ResourcePool>, n: nat, claim: Claim)
    requires Distinct(pools) && n <= |pools|
    requires forall i :: 0 <= i < n ==> AtMost(claim, pools[i].usage)
    modifies pools
    ensures forall i :: 0 <= i < n ==> pools[i].usage == Minus(old(pools[i].usage), claim)
    ensures forall i :: n <= i < |pools| ==> pools[i].usage == old(pools[i].usage)
  {
    var k := 0;
    while k < n
      invariant k <= n
      invariant forall i :: 0 <= i < k ==> pools[i].usage == Minus(old(pools[i].usage), claim)
      invariant forall i :: k <= i < |pools| ==> pools[i].usage == old(pools[i].usage)
    {
      pools[k].Release(claim);
      k := k + 1;
    }
  }

  lemma PlusMinus(a: Claim, b: Claim)
    ensures AtMost(b, Plus(a, b)) && Minus(Plus(a, b), b) == a
  {
  }

  /** One pool per user, created on first use, below the one global pool. */
  class ResourceGovernor {
    const global: ResourcePool
    const userLimits: Claim
    var users: map<string, ResourcePool>

    ghost predicate Valid()
      reads this
    {
      && (forall u :: u in users ==> users[u] != global && users[u].limits == userLimits)
      && (forall u, v :: u in users && v in users && u != v ==> users[u] != users[v])
    }

    constructor (globalLimits: Claim, limits: Claim)
      ensures Valid() && fresh(global) && global.limits == globalLimits && global.usage == ZERO
      ensures userLimits == limits && users == map[]
    {
      global := new ResourcePool(globalLimits);
      userLimits, users := limits, map[];
    }

    /** The layers of a user's account; the same user always gets the same pool. */
    method Account(user: string) returns (pools: Option<seq<ResourcePool>>)
      requires Valid()
      modifies this
      ensures Valid()
      ensures pools.None? <==> user == ""
      ensures forall u :: u in old(users) ==> u in users && users[u] == old(users[u])
      ensures users.Keys == old(users.Keys) + (if user == "" then {} else {user})
      ensures pools.Some? ==> pools.value == [global, users[user]] && Distinct(pools.value)
      ensures pools.Some? && user !in old(users) ==> fresh(users[user]) && users[user].usage == ZERO
    {
      if user == "" {
        return None;
      }
      if user !in users {
        var pool := new ResourcePool(userLimits);
        users := users[user := pool];
      }
      pools := Some([global, users[user]]);
    }
  }

  // ---------------------------------------------------------------- interleaved calls

  /**
    Where a call is between two locks.  `Taken`: the global pool granted, the user's pool not asked
    yet.  `Refused`: the user's pool refused, the global claim not given back yet.  `Half`: a dropped
    reservation has returned its global claim only.
   */
  datatype Phase = Taken | Refused | Live | Half | Done

  datatype Call = Call(user: string, claim: Claim, phase: Phase)

  datatype Pool = Global | User(name: string)

  /** `names` lists the registered users; `calls` lists every call whose global reservation succeeded. */
  datatype Governor = Governor(globalLimits: Claim, userLimits: Claim, global: Claim, users: map<string, Claim>,
                               names: seq<string>, calls: seq<Call>)

  datatype Event =
    | Account(user: string)
    | TakeGlobal(user: string, claim: Claim)
    | TakeUser(call: nat)
    | GiveBack(call: nat)
    | DropGlobal(call: nat)
    | DropUser(call: nat)

  predicate Possible(g: Governor, e: Event) {
    match e
    case Account(user) => user != ""
    case TakeGlobal(user, _) => user in g.users
    case TakeUser(i) => i < |g.calls| && g.calls[i].phase == Taken && g.calls[i].user in g.users
    case GiveBack(i) => i < |g.calls| && g.calls[i].phase == Refused
    case DropGlobal(i) => i < |g.calls| && g.calls[i].phase == Live
    case DropUser(i) => i < |g.calls| && g.calls[i].phase == Half && g.calls[i].user in g.users
  }

  function Moved(calls: seq<Call>, i: nat, phase: Phase): seq<Call>
    requires i < |calls|
  {
    calls[i := calls[i].(phase := phase)]
  }

  /** None: a release would have taken more than was in use. */
  function Next(g: Governor, e: Event): Option<Governor>
    requires Possible(g, e)
  {
    match e
    case Account(user) =>
      if user in g.users then Some(g) else Some(g.(users := g.users[user := ZERO], names := g.names + [user]))
    case TakeGlobal(user, claim) =>
      if Fits(g.global, g.globalLimits, claim)
      then Some(g.(global := Plus(g.global, claim), calls := g.calls + [Call(user, claim, Taken)])) else Some(g)
    case TakeUser(i) =>
      var c := g.calls[i];
      if Fits(g.users[c.user], g.userLimits, c.claim)
      then Some(g.(users := g.users[c.user := Plus(g.users[c.user], c.claim)], calls := Moved(g.calls, i, Live)))
      else Some(g.(calls := Moved(g.calls, i, Refused)))
    case GiveBack(i) => ReleaseGlobal(g, i, Done)
    case DropGlobal(i) => ReleaseGlobal(g, i, Half)
    case DropUser(i) =>
      var c := g.calls[i];
      var left := CheckedSub(g.users[c.user], c.claim);
      if left.None? then None
      else Some(g.(users := g.users[c.user := left.value], calls := Moved(g.calls, i, Done)))
  }

  function ReleaseGlobal(g: Governor, i: nat, phase: Phase): Option<Governor>
    requires i < |g.calls|
  {
    var left := CheckedSub(g.global, g.calls[i].claim);
    if left.None? then None
    else Some(g.(global := left.value, calls := Moved(g.calls, i, phase)))
  }

  predicate Holds(c: Call, p: Pool) {
    match p
    case Global => c.phase == Taken || c.phase == Refused || c.phase == Live
    case User(name) => c.user == name && (c.phase == Live || c.phase == Half)
  }

  /** The sum of the claims that calls hold in a pool. */
  function Held(calls: seq<Call>, p: Pool): Claim {
    if calls == [] then ZERO
    else
      var c := calls[|calls| - 1];
      var rest := Held(calls[..|calls| - 1], p);
      if Holds(c, p) then Plus(rest, c.claim) else rest
  }

  /** A call's share of a pool. */
  function Share(c: Call, p: Pool): Claim {
    if Holds(c, p) then c.claim else ZERO
  }

  lemma {:induction false} HeldChanges(calls: seq<Call>, i: nat, c: Call, p: Pool)
    requires i < |calls|
    ensures Plus(Held(calls[i := c], p), Share(calls[i], p)) == Plus(Held(calls, p), Share(c, p))
    ensures AtMost(Share(calls[i], p), Held(calls, p))
  {
    hide Holds;
    var n := |calls| - 1;
    if i == n {
      assert calls[i := c][..n] == calls[..n];
    } else {
      HeldChanges(calls[..n], i, c, p);
      assert calls[i := c][..n] == calls[..n][i := c];
      Shuffle(Held(calls[..n][i := c], p), Share(calls[i], p), Held(calls[..n], p), Share(c, p), calls[n].claim);
    }
  }

  lemma Shuffle(a: Claim, s: Claim, b: Claim, t: Claim, c: Claim)
    requires Plus(a, s) == Plus(b, t)
    ensures Plus(Plus(a, c), s) == Plus(Plus(b, c), t)
  {
    forall i | 0 <= i < WIDTH ensures a[i] + s[i] == b[i] + t[i] {
      assert Plus(a, s)[i] == Plus(b, t)[i];
    }
  }

  lemma HeldGrows(calls: seq<Call>, c: Call, p: Pool)
    ensures Held(calls + [c], p) == Plus(Held(calls, p), Share(c, p))
  {
    assert (calls + [c])[..|calls|] == calls;
  }

  lemma {:induction false} NoneHeld(calls: seq<Call>, name: string)
    requires forall i :: 0 <= i < |calls| ==> calls[i].user != name
    ensures Held(calls, User(name)) == ZERO
  {
    if calls != [] {
      NoneHeld(calls[..|calls| - 1], name);
    }
  }

  predicate Registered(names: seq<string>, users: map<string, Claim>, calls: seq<Call>) {
    && (forall i :: 0 <= i < |names| ==> names[i] in users)
    && (forall name :: name in users ==> name in names)
    && (forall i, j :: 0 <= i < j < |names| ==> names[i] != names[j])
    && (forall i :: 0 <= i < |calls| ==> calls[i].user in users)
  }

  /** Usage is exactly what the calls hold, and stays within the limits. */
  predicate Inv(g: Governor) {
    && Registered(g.names, g.users, g.calls)
    && g.global == Held(g.calls, Global) && AtMost(g.global, g.globalLimits)
    && (forall name :: name in g.users ==>
          g.users[name] == Held(g.calls, User(name)) && AtMost(g.users[name], g.userLimits))
  }

  lemma HeldIs(calls: seq<Call>, i: nat, phase: Phase, p: Pool)
    requires i < |calls|
    ensures var c := calls[i].(phase := phase);
            var h, h' := Held(calls, p), Held(Moved(calls, i, phase), p);
            && (Holds(calls[i], p) == Holds(c, p) ==> h' == h)
            && (!Holds(calls[i], p) && Holds(c, p) ==> h' == Plus(h, c.claim))
            && (Holds(calls[i], p) ==> AtMost(c.claim, h))
            && (Holds(calls[i], p) && !Holds(c, p) ==> h' == Minus(h, c.claim))
  {
    hide Holds, Held;
    var c := calls[i].(phase := phase);
    HeldChanges(calls, i, c, p);
    var h, h' := Held(calls, p), Held(calls[i := c], p);
    forall k | 0 <= k < WIDTH ensures h'[k] + Share(calls[i], p)[k] == h[k] + Share(c, p)[k] {
      assert Plus(h', Share(calls[i], p))[k] == Plus(h, Share(c, p))[k];
    }
    assert Holds(calls[i], p) == Holds(c, p) ==> h' == h;
  }

  /** Moving one call on changes no other user's pool. */
  lemma MoveFacts(g: Governor, i: nat, phase: Phase)
    requires Inv(g) && i < |g.calls|
    ensures var calls' := Moved(g.calls, i, phase);
            && Registered(g.names, g.users, calls')
            && (forall name :: name in g.users && name != g.calls[i].user ==>
                  g.users[name] == Held(calls', User(name)))
  {
    hide Held;
    forall name | name in g.users && name != g.calls[i].user
      ensures g.users[name] == Held(Moved(g.calls, i, phase), User(name))
    {
      HeldIs(g.calls, i, phase, User(name));
    }
  }

  /** In every possible step usage remains what the calls hold, limits hold, and no release underflows. */
  lemma NextOk(g: Governor, e: Event)
    requires Inv(g) && Possible(g, e)
    ensures Next(g, e).Some? && Inv(Next(g, e).value)
  {
    hide Held, Plus, Registered;
    match e
    case Account(user) =>
      if user !in g.users {
        NoneHeldAccount(g, user);
      }
    case TakeGlobal(user, claim) => TakeGlobalOk(g, user, claim);
    case TakeUser(i) =>
      var phase := if Fits(g.users[g.calls[i].user], g.userLimits, g.calls[i].claim) then Live else Refused;
      MoveFacts(g, i, phase);
      SameUsers(g, i, phase);
      HeldIs(g.calls, i, phase, Global);
      HeldIs(g.calls, i, phase, User(g.calls[i].user));
    case GiveBack(i) =>
      MoveFacts(g, i, Done);
      HeldIs(g.calls, i, Done, Global);
      HeldIs(g.calls, i, Done, User(g.calls[i].user));
    case DropGlobal(i) =>
      MoveFacts(g, i, Half);
      HeldIs(g.calls, i, Half, Global);
      HeldIs(g.calls, i, Half, User(g.calls[i].user));
    case DropUser(i) =>
      MoveFacts(g, i, Done);
      SameUsers(g, i, Done);
      HeldIs(g.calls, i, Done, Global);
      HeldIs(g.calls, i, Done, User(g.calls[i].user));
  }

  /** Changing the usage of a registered user registers nobody new. */
  lemma SameUsers(g: Governor, i: nat, phase: Phase)
    requires Inv(g) && i < |g.calls|
    ensures forall usage: Claim {:trigger g.users[g.calls[i].user := usage]} ::
              Registered(g.names, g.users[g.calls[i].user := usage], Moved(g.calls, i, phase))
  {
  }

  lemma NoneHeldAccount(g: Governor, user: string)
    requires Inv(g) && user !in g.users
    ensures Inv(g.(users := g.users[user := ZERO], names := g.names + [user]))
  {
    hide Held;
    NoneHeld(g.calls, user);
    var names := g.names + [user];
    assert names[|g.names|] == user;
    forall name | name in g.users[user := ZERO] ensures name in names {
      if name in g.users {
        assert name in g.names;
      }
    }
  }

  lemma TakeGlobalOk(g: Governor, user: string, claim: Claim)
    requires Inv(g) && user in g.users
    ensures Next(g, TakeGlobal(user, claim)).Some? && Inv(Next(g, TakeGlobal(user, claim)).value)
  {
    hide Held, Plus;
    var c := Call(user, claim, Taken);
    HeldGrows(g.calls, c, Global);
    forall name | name in g.users ensures Held(g.calls + [c], User(name)) == Held(g.calls, User(name)) {
      HeldGrows(g.calls, c, User(name));
      PlusZero(Held(g.calls, User(name)));
    }
  }

  lemma PlusZero(a: Claim)
    ensures Plus(a, ZERO) == a
  {
  }

  // ---------------------------------------------------------------- whole runs

  function After(g: Governor, es: seq<Event>): Option<Governor> {
    if es == [] then Some(g)
    else
      var before := After(g, es[..|es| - 1]);
      if before.Some? && Possible(before.value, es[|es| - 1]) then Next(before.value, es[|es| - 1]) else None
  }

  function Fresh(globalLimits: Claim, userLimits: Claim): Governor {
    Governor(globalLimits, userLimits, ZERO, map[], [], [])
  }

  /**
    Over every interleaving of accounts, reservations, refusals, rollbacks and drops: each pool's
    usage equals the sum of the claims held in it and stays within the limit in every dimension.
   */
  lemma {:induction false} RunOk(globalLimits: Claim, userLimits: Claim, es: seq<Event>, g: Governor)
    requires After(Fresh(globalLimits, userLimits), es) == Some(g)
    ensures Inv(g) && g.globalLimits == globalLimits && g.userLimits == userLimits
  {
    hide Inv, Next, Possible;
    if es == [] {
      FreshOk(globalLimits, userLimits);
    } else {
      var m := After(Fresh(globalLimits, userLimits), es[..|es| - 1]).value;
      RunOk(globalLimits, userLimits, es[..|es| - 1], m);
      NextOk(m, es[|es| - 1]);
      LimitsStay(m, es[|es| - 1]);
    }
  }

  lemma FreshOk(globalLimits: Claim, userLimits: Claim)
    ensures Inv(Fresh(globalLimits, userLimits))
  {
  }

  lemma LimitsStay(g: Governor, e: Event)
    requires Possible(g, e) && Next(g, e).Some?
    ensures Next(g, e).value.globalLimits == g.globalLimits && Next(g, e).value.userLimits == g.userLimits
  {
  }

  /** No run ever reaches a release that would underflow: a possible step always succeeds. */
  lemma NeverUnderflows(globalLimits: Claim, userLimits: Claim, es: seq<Event>, g: Governor, e: Event)
    requires After(Fresh(globalLimits, userLimits), es) == Some(g) && Possible(g, e)
    ensures Next(g, e).Some?
  {
    RunOk(globalLimits, userLimits, es, g);
    NextOk(g, e);
  }

  // ---------------------------------------------------------------- conservation between the two layers

  predicate Quiescent(calls: seq<Call>) {
    forall i :: 0 <= i < |calls| ==> calls[i].phase == Live || calls[i].phase == Done
  }

  /** The usage of the listed users together. */
  function UserTotal(names: seq<string>, calls: seq<Call>): Claim {
    if names == [] then ZERO
    else Plus(UserTotal(names[..|names| - 1], calls), Held(calls, User(names[|names| - 1])))
  }

  lemma {:induction false} OneMoreCall(names: seq<string>, calls: seq<Call>, c: Call)
    requires forall i, j :: 0 <= i < j < |names| ==> names[i] != names[j]
    ensures UserTotal(names, calls + [c])
            == Plus(UserTotal(names, calls), if c.user in names && (c.phase == Live || c.phase
                == Half) then c.claim else ZERO)
  {
    hide Plus, Held;
    if names == [] {
      PlusZero(ZERO);
    } else {
      var fore, name := names[..|names| - 1], names[|names| - 1];
      OneMoreCall(fore, calls, c);
      HeldGrows(calls, c, User(name));
      assert name !in fore;
      assert c.user in names <==> c.user in fore || c.user == name;
      Regroup(UserTotal(fore, calls), Held(calls, User(name)), c.claim);
      PlusZero(UserTotal(fore, calls));
      PlusZero(Held(calls, User(name)));
      PlusZero(UserTotal(names, calls));
    }
  }

  lemma Regroup(a: Claim, b: Claim, c: Claim)
    ensures Plus(Plus(a, c), b) == Plus(Plus(a, b), c) == Plus(a, Plus(b, c))
  {
  }

  lemma {:induction false} LayersAgree(names: seq<string>, calls: seq<Call>)
    requires Quiescent(calls)
    requires forall i, j :: 0 <= i < j < |names| ==> names[i] != names[j]
    requires forall i :: 0 <= i < |calls| ==> calls[i].user in names
    ensures UserTotal(names, calls) == Held(calls, Global)
  {
    hide Plus;
    if calls == [] {
      NothingHeld(names);
    } else {
      var fore, c := calls[..|calls| - 1], calls[|calls| - 1];
      LayersAgree(names, fore);
      assert fore + [c] == calls;
      OneMoreCall(names, fore, c);
      PlusZero(UserTotal(names, fore));
    }
  }

  lemma {:induction false} NothingHeld(names: seq<string>)
    ensures UserTotal(names, []) == ZERO
  {
    if names != [] {
      NothingHeld(names[..|names| - 1]);
    }
  }

  /** Whenever no call is in progress, the global usage is the sum of the users' usages. */
  lemma GlobalIsSumOfUsers(globalLimits: Claim, userLimits: Claim, es: seq<Event>, g: Governor)
    requires After(Fresh(globalLimits, userLimits), es) == Some(g) && Quiescent(g.calls)
    ensures g.global == UserTotal(g.names, g.calls)
    ensures forall name :: name in g.users ==> g.users[name] == Held(g.calls, User(name)) && name in g.names
  {
    hide After, Held;
    RunOk(globalLimits, userLimits, es, g);
    forall i | 0 <= i < |g.calls| ensures g.calls[i].user in g.names {
      assert g.calls[i].user in g.users;
    }
    LayersAgree(g.names, g.calls);
  }

  /** A refused call leaves nothing behind: giving back restores both pools to what the other calls hold. */
  lemma RefusalLeavesNothing(g: Governor, user: string, claim: Claim)
    requires user in g.users
    requires Fits(g.global, g.globalLimits, claim) && !Fits(g.users[user], g.userLimits, claim)
    ensures var n := |g.calls|;
            After(g, [TakeGlobal(user, claim), TakeUser(n), GiveBack(n)])
            == Some(g.(calls := g.calls + [Call(user, claim, Done)]))
  {
    hide Plus, Fits, AtMost;
    var n := |g.calls|;
    var es := [TakeGlobal(user, claim), TakeUser(n), GiveBack(n)];
    assert es[..2] == [TakeGlobal(user, claim), TakeUser(n)];
    assert es[..2][..1] == [TakeGlobal(user, claim)];
    assert es[..1][..0] == [];
    PlusMinus(g.global, claim);
    var g1 := g.(global := Plus(g.global, claim), calls := g.calls + [Call(user, claim, Taken)]);
    assert After(g, es[..1]) == Some(g1);
    assert After(g, es[..2]) == Some(g1.(calls := Moved(g1.calls, n, Refused)));
    assert Moved(Moved(g1.calls, n, Refused), n, Done) == g.calls + [Call(user, claim, Done)];
  }
}
