/**
 * `processRateLimiters` (src/common/createController.ts): get-or-create one limiter per policy in
 * the registry, query every limiter for the client, and find the first policy that blocks.
 */
module RateLimiting {
  import opened Js
  import opened Collaborators

  /** The registry, the limiter table and the limiters chosen for a policy list. */
  datatype Resolution = Resolution(registry: map<string, nat>, limiters: seq<Policy>, ids: seq<nat>)

  /** One step of the reduce: a bound key prefix reuses its limiter; an unbound one gets a new limiter, created from that policy and bound to the prefix. */
  function Step(registry: map<string, nat>, limiters: seq<Policy>, p: Policy): Resolution {
    if p.keyPrefix in registry then Resolution(registry, limiters, [registry[p.keyPrefix]])
    else Resolution(registry[p.keyPrefix := |limiters|], limiters + [p], [|limiters|])
  }

  /** The reduce over the policies, one step per policy in order. */
  function Resolve(registry: map<string, nat>, limiters: seq<Policy>, policies: seq<Policy>): (r: Resolution)
    ensures |r.ids| == |policies|
    ensures |limiters| <= |r.limiters| && r.limiters[..|limiters|] == limiters
    decreases |policies|
  {
    if policies == [] then Resolution(registry, limiters, [])
    else
      var step := Step(registry, limiters, policies[0]);
      var rest := Resolve(step.registry, step.limiters, policies[1..]);
      assert rest.limiters[..|step.limiters|] == step.limiters;
      assert rest.limiters[..|limiters|] == step.limiters[..|limiters|];
      Resolution(rest.registry, rest.limiters, step.ids + rest.ids)
  }

  /** Every id names an existing limiter. */
  predicate IdsIn(ids: seq<nat>, limiters: seq<Policy>) {
    forall i :: 0 <= i < |ids| ==> ids[i] < |limiters|
  }

  /** `later` keeps every binding of `earlier`. */
  predicate Extends(later: map<string, nat>, earlier: map<string, nat>) {
    forall k :: k in earlier ==> k in later && later[k] == earlier[k]
  }

  /** One step keeps the registry consistent and the old bindings, and binds the policy's prefix, and nothing else. */
  lemma StepSound(registry: map<string, nat>, limiters: seq<Policy>, p: Policy)
    requires RegistryValid(registry, limiters)
    ensures var s := Step(registry, limiters, p);
      && RegistryValid(s.registry, s.limiters)
      && Extends(s.registry, registry)
      && p.keyPrefix in s.registry && s.ids == [s.registry[p.keyPrefix]]
      && (forall k :: k in s.registry && k !in registry ==> k == p.keyPrefix)
  {
  }

  /** The whole reduce keeps the registry consistent and the old bindings; each new binding is for a prefix of the list. */
  lemma {:induction false} ResolveKeeps(registry: map<string, nat>, limiters: seq<Policy>, policies: seq<Policy>)
    requires RegistryValid(registry, limiters)
    ensures var r := Resolve(registry, limiters, policies);
      && RegistryValid(r.registry, r.limiters)
      && Extends(r.registry, registry)
      && (forall k :: k in r.registry && k !in registry ==> exists i :: 0 <= i < |policies| && policies[i].keyPrefix == k)
    decreases |policies|
  {
    if policies != [] {
      var step := Step(registry, limiters, policies[0]);
      StepSound(registry, limiters, policies[0]);
      ResolveKeeps(step.registry, step.limiters, policies[1..]);
      var r := Resolve(registry, limiters, policies);
      forall k | k in r.registry && k !in registry
        ensures exists i :: 0 <= i < |policies| && policies[i].keyPrefix == k
      {
        if k in step.registry {
          assert policies[0].keyPrefix == k;
        } else {
          var j :| 0 <= j < |policies[1..]| && policies[1..][j].keyPrefix == k;
          assert policies[j + 1].keyPrefix == k;
        }
      }
    }
  }

  /** The reduce binds every policy's prefix and chooses, for each policy, the limiter bound to its prefix. */
  lemma {:induction false} ResolveBinds(registry: map<string, nat>, limiters: seq<Policy>, policies: seq<Policy>)
    requires RegistryValid(registry, limiters)
    ensures var r := Resolve(registry, limiters, policies);
      forall i :: 0 <= i < |policies| ==> policies[i].keyPrefix in r.registry && r.ids[i] == r.registry[policies[i].keyPrefix]
    decreases |policies|
  {
    if policies != [] {
      var step := Step(registry, limiters, policies[0]);
      StepSound(registry, limiters, policies[0]);
      ResolveKeeps(step.registry, step.limiters, policies[1..]);
      ResolveBinds(step.registry, step.limiters, policies[1..]);
      var r := Resolve(registry, limiters, policies);
      var rest := Resolve(step.registry, step.limiters, policies[1..]);
      assert r.ids == step.ids + rest.ids;
      forall i | 0 <= i < |policies|
        ensures policies[i].keyPrefix in r.registry && r.ids[i] == r.registry[policies[i].keyPrefix]
      {
        if i > 0 {
          assert policies[i] == policies[1..][i - 1];
          assert r.ids[i] == rest.ids[i - 1];
        }
      }
    }
  }

  /**
   * Get-or-create keeps the registry consistent, never re-creates a bound limiter, binds every
   * policy's prefix, and returns one limiter per policy, in order: the one bound to its prefix.
   * Limiters it creates are for prefixes of the list that were unbound before.
   */
  lemma ResolveSound(registry: map<string, nat>, limiters: seq<Policy>, policies: seq<Policy>)
    requires RegistryValid(registry, limiters)
    ensures var r := Resolve(registry, limiters, policies);
      && RegistryValid(r.registry, r.limiters)
      && Extends(r.registry, registry)
      && (forall i :: 0 <= i < |policies| ==> policies[i].keyPrefix in r.registry && r.ids[i] == r.registry[policies[i].keyPrefix])
      && IdsIn(r.ids, r.limiters)
      && (forall k :: k in r.registry && k !in registry ==> exists i :: 0 <= i < |policies| && policies[i].keyPrefix == k)
  {
    ResolveKeeps(registry, limiters, policies);
    ResolveBinds(registry, limiters, policies);
  }

  /** Policies that share a key prefix share one limiter, even within one list. */
  lemma SamePrefixSameLimiter(registry: map<string, nat>, limiters: seq<Policy>, policies: seq<Policy>, i: nat, j: nat)
    requires RegistryValid(registry, limiters)
    requires i < |policies| && j < |policies| && policies[i].keyPrefix == policies[j].keyPrefix
    ensures Resolve(registry, limiters, policies).ids[i] == Resolve(registry, limiters, policies).ids[j]
  {
    ResolveSound(registry, limiters, policies);
  }

  /** When every prefix is already bound, nothing is created and the registry is unchanged. */
  lemma {:induction false} ResolveReusesBound(registry: map<string, nat>, limiters: seq<Policy>, policies: seq<Policy>)
    requires forall i :: 0 <= i < |policies| ==> policies[i].keyPrefix in registry
    ensures Resolve(registry, limiters, policies).registry == registry
    ensures Resolve(registry, limiters, policies).limiters == limiters
    decreases |policies|
  {
    if policies != [] {
      assert policies[0].keyPrefix in registry;
      forall i | 0 <= i < |policies[1..]| ensures policies[1..][i].keyPrefix in registry {
        assert policies[1..][i] == policies[i + 1];
      }
      ResolveReusesBound(registry, limiters, policies[1..]);
    }
  }

  /** What `limiter.get(ip)` reports for the limiter numbered `id`. */
  function StateOf(env: Env, limiters: seq<Policy>, id: nat): Option<LimiterRes> {
    if id < |limiters| then CounterOf(env, limiters[id].keyPrefix) else None
  }

  /** The state each chosen limiter reports for the client (`rtResults`). */
  function States(env: Env, limiters: seq<Policy>, ids: seq<nat>): (r: seq<Option<LimiterRes>>)
    ensures |r| == |ids|
  {
    seq(|ids|, i requires 0 <= i < |ids| => StateOf(env, limiters, ids[i]))
  }

  /** The calls `limiter.get(ip)`, one per chosen limiter, in order. */
  function Gets(ids: seq<nat>, ip: Ip): (r: seq<Event>)
    ensures |r| == |ids|
  {
    seq(|ids|, i requires 0 <= i < |ids| => LimiterGet(ids[i], ip))
  }

  /** The calls `limiter.consume(ip)`, one per chosen limiter, in order. */
  function Consumes(ids: seq<nat>, ip: Ip): (r: seq<Event>)
    ensures |r| == |ids|
  {
    seq(|ids|, i requires 0 <= i < |ids| => LimiterConsume(ids[i], ip))
  }

  /** The queries are all `get` calls for the client, and the consumptions all `consume` calls for it. */
  lemma LimiterCallsAreForTheClient(ids: seq<nat>, ip: Ip)
    ensures forall e :: e in Gets(ids, ip) ==> e.LimiterGet? && e.ip == ip
    ensures forall e :: e in Consumes(ids, ip) ==> e.LimiterConsume? && e.ip == ip
  {
    forall e | e in Gets(ids, ip) ensures e.LimiterGet? && e.ip == ip {
      var i :| 0 <= i < |ids| && Gets(ids, ip)[i] == e;
    }
    forall e | e in Consumes(ids, ip) ensures e.LimiterConsume? && e.ip == ip {
      var i :| 0 <= i < |ids| && Consumes(ids, ip)[i] == e;
    }
  }

  /** Each limiter is queried once per occurrence in the list. */
  lemma {:induction false} GetsCount(ids: seq<nat>, ip: Ip, id: nat)
    ensures multiset(Gets(ids, ip))[LimiterGet(id, ip)] == multiset(ids)[id]
    decreases |ids|
  {
    if ids != [] {
      var n := |ids| - 1;
      GetsCount(ids[..n], ip, id);
      assert Gets(ids, ip) == Gets(ids[..n], ip) + [LimiterGet(ids[n], ip)];
      assert ids == ids[..n] + [ids[n]];
    }
  }

  /** Each limiter is consumed once per occurrence in the list. */
  lemma {:induction false} ConsumesCount(ids: seq<nat>, ip: Ip, id: nat)
    ensures multiset(Consumes(ids, ip))[LimiterConsume(id, ip)] == multiset(ids)[id]
    decreases |ids|
  {
    if ids != [] {
      var n := |ids| - 1;
      ConsumesCount(ids[..n], ip, id);
      assert Consumes(ids, ip) == Consumes(ids[..n], ip) + [LimiterConsume(ids[n], ip)];
      assert ids == ids[..n] + [ids[n]];
    }
  }

  /** A policy blocks when the client has a record and has consumed strictly more than its points. */
  predicate Blocks(policy: Policy, state: Option<LimiterRes>) {
    state.Some? && state.value.consumedPoints > policy.points
  }

  /** The position of the first blocking policy, in declaration order. */
  function FirstBlocking(policies: seq<Policy>, states: seq<Option<LimiterRes>>): (r: Option<nat>)
    requires |policies| == |states|
    ensures r.Some? ==> r.value < |policies| && Blocks(policies[r.value], states[r.value])
    decreases |policies|
  {
    if policies == [] then None
    else
      var n := |policies| - 1;
      var earlier := FirstBlocking(policies[..n], states[..n]);
      if earlier.Some? then earlier
      else if Blocks(policies[n], states[n]) then Some(n)
      else None
  }

  /** The position found blocks, and no earlier one does; when none is found, no policy blocks. */
  lemma {:induction false} FirstBlockingMeaning(policies: seq<Policy>, states: seq<Option<LimiterRes>>)
    requires |policies| == |states|
    ensures var r := FirstBlocking(policies, states);
      && (r.Some? ==> r.value < |policies| && Blocks(policies[r.value], states[r.value]))
      && (r.Some? ==> forall j :: 0 <= j < r.value ==> !Blocks(policies[j], states[j]))
      && (r.None? ==> forall j :: 0 <= j < |policies| ==> !Blocks(policies[j], states[j]))
    decreases |policies|
  {
    if policies != [] {
      var n := |policies| - 1;
      FirstBlockingMeaning(policies[..n], states[..n]);
      assert forall j :: 0 <= j < n ==> policies[..n][j] == policies[j] && states[..n][j] == states[j];
    }
  }

  /** `Math.round(ms / 1000)` for an integer `ms`: the nearest integer, halves rounded up. */
  function RoundMs(ms: int): (r: int)
    ensures 1000 * r - 500 <= ms < 1000 * r + 500
  {
    (ms + 500) / 1000
  }

  /** `x || 1` on a number. */
  function OrOne(x: int): (r: int)
    ensures r != 0
    ensures x != 0 ==> r == x
    ensures x == 0 ==> r == 1
  {
    if x != 0 then x else 1
  }

  /**
   * `retrySecs`: 0 when no policy blocks; otherwise `Math.round(msBeforeNext / 1000) || 1` for the
   * first blocking policy.
   */
  function RetrySecs(policies: seq<Policy>, states: seq<Option<LimiterRes>>): (r: int)
    requires |policies| == |states|
    ensures r == 0 <==> forall j :: 0 <= j < |policies| ==> !Blocks(policies[j], states[j])
  {
    FirstBlockingMeaning(policies, states);
    match FirstBlocking(policies, states)
    case None => 0
    case Some(i) => OrOne(RoundMs(states[i].value.msBeforeNext))
  }

  /**
   * The first blocking policy decides: `retrySecs` is 0 exactly when no policy blocks, is computed
   * from the first blocking policy's `msBeforeNext`, and is at least 1 when that is not below -500.
   */
  lemma RetrySecsMeaning(policies: seq<Policy>, states: seq<Option<LimiterRes>>, i: nat)
    requires |policies| == |states|
    ensures RetrySecs(policies, states) == 0 <==> forall j :: 0 <= j < |policies| ==> !Blocks(policies[j], states[j])
    ensures i < |policies| && Blocks(policies[i], states[i]) && (forall j :: 0 <= j < i ==> !Blocks(policies[j], states[j])) ==>
      && RetrySecs(policies, states) == OrOne(RoundMs(states[i].value.msBeforeNext))
      && (states[i].value.msBeforeNext >= -500 ==> RetrySecs(policies, states) >= 1)
  {
    var f := FirstBlocking(policies, states);
    FirstBlockingMeaning(policies, states);
    if i < |policies| && Blocks(policies[i], states[i]) && (forall j :: 0 <= j < i ==> !Blocks(policies[j], states[j])) {
      assert f.Some?;
      assert f.value == i;
    }
  }

  /** Extending the scan by one policy: it decides only when no earlier policy has decided. */
  lemma RetrySecsStep(policies: seq<Policy>, states: seq<Option<LimiterRes>>, n: nat)
    requires |policies| == |states| && n < |policies|
    ensures var before := RetrySecs(policies[..n], states[..n]);
      RetrySecs(policies[..n + 1], states[..n + 1]) ==
        if before == 0 && Blocks(policies[n], states[n]) then OrOne(RoundMs(states[n].value.msBeforeNext)) else before
  {
    var p, q := policies[..n + 1], states[..n + 1];
    assert p[..n] == policies[..n] && q[..n] == states[..n];
    var earlier := FirstBlocking(policies[..n], states[..n]);
    if earlier.Some? {
      assert q[earlier.value] == states[..n][earlier.value];
    }
  }

  /** Blocking is strict: a client that has used exactly its points is not blocked. */
  lemma ExactlyAtLimitDoesNotBlock(policy: Policy, ms: int)
    ensures RetrySecs([policy], [Some(LimiterRes(policy.points, ms))]) == 0
    ensures RetrySecs([policy], [Some(LimiterRes(policy.points + 1, ms))]) == OrOne(RoundMs(ms))
  {
    RetrySecsMeaning([policy], [Some(LimiterRes(policy.points, ms))], 0);
    RetrySecsMeaning([policy], [Some(LimiterRes(policy.points + 1, ms))], 0);
  }

  /** What `limiter.consume(ip)` rejects with for the limiter numbered `id`, if it rejects. */
  function RejectionFor(env: Env, limiters: seq<Policy>, id: nat): Option<Thrown> {
    if id < |limiters| then RejectionOf(env, limiters[id].keyPrefix) else None
  }

  /** The first limiter, in list order, whose `consume` rejects: what it rejects with. */
  function FirstRejection(env: Env, limiters: seq<Policy>, ids: seq<nat>): (r: Option<Thrown>)
    ensures r.Some? ==> exists j :: 0 <= j < |ids| && RejectionFor(env, limiters, ids[j]) == r
    decreases |ids|
  {
    if ids == [] then None
    else
      var n := |ids| - 1;
      var earlier := FirstRejection(env, limiters, ids[..n]);
      if earlier.Some? then earlier else RejectionFor(env, limiters, ids[n])
  }

  /**
   * The consumption fails exactly when some chosen limiter rejects, and then with the rejection of
   * the first one that does, in list order.
   */
  lemma {:induction false} FirstRejectionMeaning(env: Env, limiters: seq<Policy>, ids: seq<nat>)
    ensures FirstRejection(env, limiters, ids).None? <==> forall j :: 0 <= j < |ids| ==> RejectionFor(env, limiters, ids[j]).None?
    ensures forall i :: 0 <= i < |ids| && RejectionFor(env, limiters, ids[i]).Some? && (forall j :: 0 <= j < i ==> RejectionFor(env, limiters, ids[j]).None?) ==>
      FirstRejection(env, limiters, ids) == RejectionFor(env, limiters, ids[i])
    decreases |ids|
  {
    if ids != [] {
      var n := |ids| - 1;
      FirstRejectionMeaning(env, limiters, ids[..n]);
      assert forall j :: 0 <= j < n ==> ids[..n][j] == ids[j];
    }
  }

  /** The reduce over a non-empty list: the first policy's step, then the reduce over the rest. */
  lemma ResolveFirst(registry: map<string, nat>, limiters: seq<Policy>, policies: seq<Policy>)
    requires policies != []
    ensures var step := Step(registry, limiters, policies[0]);
      var rest := Resolve(step.registry, step.limiters, policies[1..]);
      Resolve(registry, limiters, policies) == Resolution(rest.registry, rest.limiters, step.ids + rest.ids)
  {
  }

  /** One step of the reduce on the runtime: the limiter bound to the policy's prefix, or a new one bound to it. */
  method GetOrCreate(rt: Runtime, params: Policy) returns (id: nat)
    requires rt.Valid()
    modifies rt
    ensures rt.Valid()
    ensures var s := Step(old(rt.registry), old(rt.limiters), params);
      && rt.registry == s.registry && rt.limiters == s.limiters && [id] == s.ids
      && rt.store == old(rt.store) && rt.txOpened == old(rt.txOpened) && rt.log == old(rt.log)
  {
    StepSound(rt.registry, rt.limiters, params);
    if params.keyPrefix in rt.registry {
      id := rt.registry[params.keyPrefix];
    } else {
      id := rt.Bind(params);
    }
  }

  /** The reduce of `processRateLimiters`: gets or creates the limiter of each policy, in order. */
  method ResolveLimiters(rt: Runtime, policies: seq<Policy>) returns (current: seq<nat>)
    requires rt.Valid()
    modifies rt
    ensures rt.Valid()
    ensures var r := Resolve(old(rt.registry), old(rt.limiters), policies);
      && rt.Snapshot() == old(rt.Snapshot()).(registry := r.registry, limiters := r.limiters)
      && rt.log == old(rt.log) && current == r.ids
  {
    ghost var initial := Resolve(rt.registry, rt.limiters, policies);
    current := [];
    var i := 0;
    while i < |policies|
      invariant 0 <= i <= |policies| && rt.Valid()
      invariant current == initial.ids[..i]
      invariant Resolve(rt.registry, rt.limiters, policies[i..]) == Resolution(initial.registry, initial.limiters, initial.ids[i..])
      invariant rt.store == old(rt.store) && rt.txOpened == old(rt.txOpened) && rt.log == old(rt.log)
    {
      var params := policies[i];
      ResolveFirst(rt.registry, rt.limiters, policies[i..]);
      ghost var step := Step(rt.registry, rt.limiters, params);
      var id := GetOrCreate(rt, params);
      ghost var rest := Resolve(rt.registry, rt.limiters, policies[i + 1..]);
      assert initial.ids[i..] == [id] + rest.ids;
      assert initial.ids[i..][1..] == initial.ids[i + 1..];
      assert initial.ids[..i + 1] == initial.ids[..i] + [id];
      current := current + [id];
      i := i + 1;
    }
    assert initial.ids[..i] == initial.ids;
  }

  /** `Promise.all(currentRateLimiters.map((tr) => tr.get(ipAddr)))`: queries each chosen limiter once, in order. */
  method QueryLimiters(rt: Runtime, env: Env, ip: Ip, current: seq<nat>) returns (results: seq<Option<LimiterRes>>)
    requires IdsIn(current, rt.limiters)
    modifies rt
    ensures rt.Snapshot() == old(rt.Snapshot()) && rt.log == old(rt.log) + Gets(current, ip)
    ensures results == States(env, rt.limiters, current)
  {
    results := [];
    var j := 0;
    while j < |current|
      invariant 0 <= j <= |current|
      invariant rt.Snapshot() == old(rt.Snapshot())
      invariant rt.log == old(rt.log) + Gets(current[..j], ip)
      invariant results == States(env, rt.limiters, current[..j])
    {
      var resByIP := rt.GetState(env, current[j], ip);
      assert Gets(current[..j + 1], ip) == Gets(current[..j], ip) + [LimiterGet(current[j], ip)];
      results := results + [resByIP];
      j := j + 1;
    }
    assert current[..j] == current;
  }

  /**
   * `processRateLimiters(ipAddr, rateLimiters)`: returns `retrySecs` and the limiters chosen, after
   * a `get` on each of them.
   */
  method ProcessRateLimiters(rt: Runtime, env: Env, ip: Ip, policies: seq<Policy>) returns (retrySecs: int, current: seq<nat>)
    requires rt.Valid()
    modifies rt
    ensures rt.Valid()
    ensures var r := Resolve(old(rt.registry), old(rt.limiters), policies);
      && rt.Snapshot() == old(rt.Snapshot()).(registry := r.registry, limiters := r.limiters)
      && current == r.ids && IdsIn(current, rt.limiters)
      && rt.log == old(rt.log) + Gets(current, ip)
      && retrySecs == RetrySecs(policies, States(env, rt.limiters, current))
  {
    ResolveSound(rt.registry, rt.limiters, policies);
    current := ResolveLimiters(rt, policies);
    var results := QueryLimiters(rt, env, ip, current);
    retrySecs := ComputeRetry(policies, results);
  }

  /** The loop of `processRateLimiters` over the answers: the wait of the first policy that blocks, 0 when none does. */
  method ComputeRetry(policies: seq<Policy>, results: seq<Option<LimiterRes>>) returns (retrySecs: int)
    requires |results| == |policies|
    ensures retrySecs == RetrySecs(policies, results)
  {
    retrySecs := 0;
    var ind := 0;
    while ind < |results|
      invariant 0 <= ind <= |results|
      invariant retrySecs == RetrySecs(policies[..ind], results[..ind])
    {
      var resByIP := results[ind];
      RetrySecsStep(policies, results, ind);
      if retrySecs == 0 && resByIP.Some? && resByIP.value.consumedPoints > policies[ind].points {
        retrySecs := OrOne(RoundMs(resByIP.value.msBeforeNext));
      }
      ind := ind + 1;
    }
    assert policies[..ind] == policies;
    assert results[..ind] == results;
  }

  /**
   * `Promise.all(currentRateLimiters.map((tr) => tr.consume(ipAddr)))`: every chosen limiter is
   * consumed once, in order; the first rejection in list order is returned.
   */
  method ConsumeAll(rt: Runtime, env: Env, ip: Ip, current: seq<nat>) returns (rejection: Option<Thrown>)
    requires IdsIn(current, rt.limiters)
    modifies rt
    ensures rt.Snapshot() == old(rt.Snapshot()) && rt.log == old(rt.log) + Consumes(current, ip)
    ensures rejection == FirstRejection(env, rt.limiters, current)
  {
    rejection := None;
    var i := 0;
    while i < |current|
      invariant 0 <= i <= |current|
      invariant rt.Snapshot() == old(rt.Snapshot())
      invariant rt.log == old(rt.log) + Consumes(current[..i], ip)
      invariant rejection == FirstRejection(env, rt.limiters, current[..i])
    {
      var r := rt.Consume(env, current[i], ip);
      assert Consumes(current[..i + 1], ip) == Consumes(current[..i], ip) + [LimiterConsume(current[i], ip)];
      assert current[..i + 1][..i] == current[..i];
      if rejection.None? {
        rejection := r;
      }
      i := i + 1;
    }
    assert current[..i] == current;
  }
}
