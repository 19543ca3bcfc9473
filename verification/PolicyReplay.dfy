/** The two policy replays: the governing hash of every audit record, and the registered policies. */
module PolicyReplay {
  import opened Common
  import opened ReplayTables

  datatype Policy = Policy(hash: Digest, body: string)

  /** Storage refuses a policy row whose hash is not the hash of its content. */
  type PolicyHash = string -> Digest

  predicate Decodes(policyHash: PolicyHash, p: Policy)
  {
    p.hash == policyHash(p.body)
  }

  predicate AllDecode(policyHash: PolicyHash, registered: seq<Policy>, active: Option<Policy>)
  {
    (forall i :: 0 <= i < |registered| ==> Decodes(policyHash, registered[i])) && (active.Some? ==> Decodes(policyHash, active.value))
  }

  /** No two policies share a hash. */
  ghost predicate CollisionFree(policyHash: PolicyHash)
  {
    forall a, b :: policyHash(a) == policyHash(b) ==> a == b
  }

  datatype Transition = Transition(prior: Digest, candidate: Policy, rollback: Digest)

  /** What one audit record says about policies; the transition is there when it took effect. */
  datatype PolicyEvent = PolicyEvent(governing: Digest, transition: Option<Transition>)

  // ---- the first replay ----

  function FollowPolicy(policies: map<Digest, Policy>): (Digest, PolicyEvent) -> Result<Digest>
  {
    (current: Digest, e: PolicyEvent) =>
      if e.governing != current then Raised
      else if e.transition.None? then Ok(current)
      else
        var t := e.transition.value;
        if t.prior != current || !RegisteredExactly(policies, t.candidate) then Raised else Ok(t.candidate.hash)
  }

  predicate RegisteredExactly(policies: map<Digest, Policy>, p: Policy)
  {
    p.hash in policies && policies[p.hash] == p
  }

  predicate HistoricalSequence(events: seq<PolicyEvent>, policies: map<Digest, Policy>, active: Option<Policy>)
  {
    events == [] ||
    (&& events[0].governing in policies
     && var last := Fold(FollowPolicy(policies), events[0].governing, events);
     && last.Ok? && active.Some? && active.value.hash == last.value)
  }

  /** `_require_historical_policy_sequence`. */
  method RequireHistoricalSequence(events: seq<PolicyEvent>, policies: map<Digest, Policy>, active: Option<Policy>) returns (ok: bool)
    ensures ok <==> HistoricalSequence(events, policies, active)
  {
    if events == [] {
      return true;
    }
    if events[0].governing !in policies {
      return false;
    }
    ghost var step := FollowPolicy(policies);
    var replayActive := events[0].governing;
    for i := 0 to |events|
      invariant Fold(step, events[0].governing, events[..i]) == Ok(replayActive)
    {
      var e := events[i];
      FoldSnoc(step, events[0].governing, events[..i], e);
      assert events[..i + 1] == events[..i] + [e];
      if e.governing != replayActive ||
         (e.transition.Some? && (e.transition.value.prior != replayActive || !RegisteredExactly(policies, e.transition.value.candidate)))
      {
        if Fold(step, events[0].governing, events).Ok? {
          FoldPrefix(step, events[0].governing, events, i + 1);
        }
        return false;
      }
      if e.transition.Some? {
        replayActive := e.transition.value.candidate.hash;
      }
    }
    assert events[..|events|] == events;
    return active.Some? && active.value.hash == replayActive;
  }

  /** The policy in force before record i: the candidate of the last transition before it. */
  function ActiveBefore(events: seq<PolicyEvent>, i: nat): Digest
    requires events != [] && i <= |events|
  {
    if i == 0 then events[0].governing
    else if events[i - 1].transition.Some? then events[i - 1].transition.value.candidate.hash
    else ActiveBefore(events, i - 1)
  }

  /** Record i was governed by the policy in force, and a transition continues it with a policy
      that is registered as it stands. */
  predicate Governs(events: seq<PolicyEvent>, policies: map<Digest, Policy>, i: nat)
    requires i < |events|
  {
    var e, current := events[i], ActiveBefore(events, i);
    && e.governing == current
    && (e.transition.Some? ==> e.transition.value.prior == current && RegisteredExactly(policies, e.transition.value.candidate))
  }

  predicate AllGovern(events: seq<PolicyEvent>, policies: map<Digest, Policy>, n: nat)
    requires n <= |events|
  {
    forall i :: 0 <= i < n ==> Governs(events, policies, i)
  }

  lemma FollowStep(events: seq<PolicyEvent>, policies: map<Digest, Policy>, i: nat)
    requires i < |events|
    ensures FollowPolicy(policies)(ActiveBefore(events, i), events[i])
         == if Governs(events, policies, i) then Ok(ActiveBefore(events, i + 1)) else Raised
  {}

  lemma {:induction false} FollowsActive(events: seq<PolicyEvent>, policies: map<Digest, Policy>, n: nat)
    requires events != [] && n <= |events|
    ensures Fold(FollowPolicy(policies), events[0].governing, events[..n])
         == if AllGovern(events, policies, n) then Ok(ActiveBefore(events, n)) else Raised
  {
    hide Fold, Governs, FollowPolicy;
    if n > 0 {
      FollowsActive(events, policies, n - 1);
      FollowStep(events, policies, n - 1);
      assert events[..n] == events[..n - 1] + [events[n - 1]];
      FoldSnoc(FollowPolicy(policies), events[0].governing, events[..n - 1], events[n - 1]);
      assert AllGovern(events, policies, n) <==> AllGovern(events, policies, n - 1) && Governs(events, policies, n - 1);
    } else {
      FoldOfNone(FollowPolicy(policies), events[0].governing, events[..0]);
    }
  }

  lemma FoldOfNone<S, X>(step: (S, X) -> Result<S>, start: S, xs: seq<X>)
    requires xs == []
    ensures Fold(step, start, xs) == Ok(start)
  {}

  /** The first replay passes exactly when every record was governed by the policy then in force,
      from a registered first policy to the stored active pointer. */
  lemma HistoricalExactly(events: seq<PolicyEvent>, policies: map<Digest, Policy>, active: Option<Policy>)
    requires events != []
    ensures HistoricalSequence(events, policies, active) <==>
      && events[0].governing in policies
      && AllGovern(events, policies, |events|)
      && active.Some? && active.value.hash == ActiveBefore(events, |events|)
  {
    FollowsActive(events, policies, |events|);
    assert events[..|events|] == events;
  }

  // ---- the second replay ----

  function TransitionsOf(events: seq<PolicyEvent>): seq<(Transition, Digest)>
  {
    if events == [] then []
    else
      var last := events[|events| - 1];
      TransitionsOf(events[..|events| - 1]) + (if last.transition.Some? then [(last.transition.value, last.governing)] else [])
  }

  type Registry = map<Digest, Policy>

  function Rebuild(): ((Registry, Digest), (Transition, Digest)) -> Result<(Registry, Digest)>
  {
    (state: (Registry, Digest), step: (Transition, Digest)) =>
      var (expected, current) := state;
      var (t, governing) := step;
      if t.prior != current || governing != current || t.rollback !in expected then Raised
      else if t.candidate.hash in expected && expected[t.candidate.hash] != t.candidate then Raised
      else Ok((expected[t.candidate.hash := t.candidate], t.candidate.hash))
  }

  function PolicyRows(registered: seq<Policy>): seq<(Digest, Policy)>
  {
    seq(|registered|, i requires 0 <= i < |registered| => (registered[i].hash, registered[i]))
  }

  predicate ProjectionSequence(registered: seq<Policy>, active: Option<Policy>, transitions: seq<(Transition, Digest)>)
  {
    var added := AddRows(map[], PolicyRows(registered));
    && added.Ok?
    && var actual := added.value;
    if transitions == [] then
      (actual == map[] && active.None?) || (active.Some? && RegisteredExactly(actual, active.value))
    else RebuildsTo(actual, active, transitions)
  }

  predicate RebuildsTo(actual: Registry, active: Option<Policy>, transitions: seq<(Transition, Digest)>)
    requires transitions != []
  {
    var first := transitions[0].0.prior;
    && first in actual
    && var last := Fold(Rebuild(), (map[first := actual[first]], first), transitions);
    && last.Ok? && last.value.0 == actual && active.Some? && active.value.hash == last.value.1
  }

  /** `_require_policy_projection_consistency`. */
  method RequirePolicyProjection(registered: seq<Policy>, active: Option<Policy>, transitions: seq<(Transition, Digest)>) returns (ok: bool)
    ensures ok <==> ProjectionSequence(registered, active, transitions)
  {
    var actual: Registry := map[];
    ghost var rows := PolicyRows(registered);
    for i := 0 to |registered|
      invariant AddRows(map[], rows[..i]) == Ok(actual)
    {
      assert rows[..i + 1] == rows[..i] + [rows[i]];
      FoldSnoc(AddRow(), map[], rows[..i], rows[i]);
      if registered[i].hash in actual {
        if AddRows(map[], rows).Ok? {
          FoldPrefix(AddRow(), map[], rows, i + 1);
        }
        return false;
      }
      actual := actual[registered[i].hash := registered[i]];
    }
    assert rows[..|registered|] == rows;
    if transitions == [] {
      return (actual == map[] && active.None?) || (active.Some? && RegisteredExactly(actual, active.value));
    }
    ok := RebuildRegistry(actual, active, transitions);
  }

  method RebuildRegistry(actual: Registry, active: Option<Policy>, transitions: seq<(Transition, Digest)>) returns (ok: bool)
    requires transitions != []
    ensures ok <==> RebuildsTo(actual, active, transitions)
  {
    var first := transitions[0].0.prior;
    if first !in actual {
      return false;
    }
    ghost var start := (map[first := actual[first]], first);
    var expected: Registry := map[first := actual[first]];
    var replayActive := first;
    for i := 0 to |transitions|
      invariant Fold(Rebuild(), start, transitions[..i]) == Ok((expected, replayActive))
    {
      var (t, governing) := transitions[i];
      FoldSnoc(Rebuild(), start, transitions[..i], transitions[i]);
      assert transitions[..i + 1] == transitions[..i] + [transitions[i]];
      if t.prior != replayActive || governing != replayActive || t.rollback !in expected ||
         (t.candidate.hash in expected && expected[t.candidate.hash] != t.candidate)
      {
        if Fold(Rebuild(), start, transitions).Ok? {
          FoldPrefix(Rebuild(), start, transitions, i + 1);
        }
        return false;
      }
      expected := expected[t.candidate.hash := t.candidate];
      replayActive := t.candidate.hash;
    }
    assert transitions[..|transitions|] == transitions;
    return expected == actual && active.Some? && active.value.hash == replayActive;
  }

  // ---- how the two replays agree ----

  /** Every policy in force at some time before record i. */
  function EverActive(events: seq<PolicyEvent>, i: nat): set<Digest>
    requires events != [] && i <= |events|
  {
    if i == 0 then {events[0].governing}
    else EverActive(events, i - 1) + (if events[i - 1].transition.Some? then {events[i - 1].transition.value.candidate.hash} else {})
  }

  predicate RollsBackToKnown(events: seq<PolicyEvent>, i: nat)
    requires i < |events|
  {
    events[i].transition.Some? ==> events[i].transition.value.rollback in EverActive(events, i)
  }

  function Restrict(policies: Registry, hashes: set<Digest>): Registry
  {
    map hash | hash in policies && hash in hashes :: policies[hash]
  }

  predicate AllRollBack(events: seq<PolicyEvent>, n: nat)
    requires n <= |events|
  {
    forall i :: 0 <= i < n ==> RollsBackToKnown(events, i)
  }

  lemma {:induction false} EverActiveRegistered(events: seq<PolicyEvent>, policies: Registry, n: nat)
    requires events != [] && n <= |events| && events[0].governing in policies && AllGovern(events, policies, n)
    ensures forall hash :: hash in EverActive(events, n) ==> hash in policies
  {
    if n > 0 {
      EverActiveRegistered(events, policies, n - 1);
      assert Governs(events, policies, n - 1);
    }
  }

  /** The state of the second replay before record n. */
  function RebuiltBefore(events: seq<PolicyEvent>, policies: Registry, n: nat): (Registry, Digest)
    requires events != [] && n <= |events|
  {
    (Restrict(policies, EverActive(events, n)), ActiveBefore(events, n))
  }

  lemma RebuildStep(events: seq<PolicyEvent>, policies: Registry, i: nat)
    requires i < |events| && events[0].governing in policies && AllGovern(events, policies, i + 1) && events[i].transition.Some?
    ensures Rebuild()(RebuiltBefore(events, policies, i), (events[i].transition.value, events[i].governing))
         == if RollsBackToKnown(events, i) then Ok(RebuiltBefore(events, policies, i + 1)) else Raised
  {
    assert Governs(events, policies, i);
    EverActiveRegistered(events, policies, i);
    var hash, known := events[i].transition.value.candidate.hash, Restrict(policies, EverActive(events, i));
    assert known[hash := policies[hash]] == Restrict(policies, EverActive(events, i + 1));
  }

  lemma TransitionsSnoc(events: seq<PolicyEvent>, i: nat)
    requires i < |events|
    ensures TransitionsOf(events[..i + 1])
         == TransitionsOf(events[..i]) + (if events[i].transition.Some? then [(events[i].transition.value, events[i].governing)] else [])
  {
    assert events[..i + 1][..i] == events[..i];
  }

  /** The second replay follows the first: same policy in force, and a registry of exactly the
      policies that were ever in force, as long as every rollback target was one of them. */
  lemma {:induction false} RebuildFollows(events: seq<PolicyEvent>, policies: Registry, n: nat)
    requires events != [] && n <= |events| && events[0].governing in policies && AllGovern(events, policies, n)
    ensures Fold(Rebuild(), RebuiltBefore(events, policies, 0), TransitionsOf(events[..n]))
         == if AllRollBack(events, n) then Ok(RebuiltBefore(events, policies, n)) else Raised
  {
    hide Fold, Rebuild, Governs, RollsBackToKnown, Restrict;
    if n == 0 {
      FoldOfNone(Rebuild(), RebuiltBefore(events, policies, 0), TransitionsOf(events[..0]));
    } else {
      var transitions := TransitionsOf(events[..n - 1]);
      RebuildFollows(events, policies, n - 1);
      TransitionsSnoc(events, n - 1);
      assert AllRollBack(events, n) <==> AllRollBack(events, n - 1) && RollsBackToKnown(events, n - 1);
      if events[n - 1].transition.Some? {
        FoldSnoc(Rebuild(), RebuiltBefore(events, policies, 0), transitions, (events[n - 1].transition.value, events[n - 1].governing));
        RebuildStep(events, policies, n - 1);
      } else {
        NoTransitionKeeps(events, n - 1);
        assert transitions + [] == transitions;
      }
    }
  }

  lemma NoTransitionKeeps(events: seq<PolicyEvent>, i: nat)
    requires i < |events| && events[i].transition.None?
    ensures RollsBackToKnown(events, i) && EverActive(events, i + 1) == EverActive(events, i)
    ensures ActiveBefore(events, i + 1) == ActiveBefore(events, i)
  {}

  lemma {:induction false} FirstTransition(events: seq<PolicyEvent>, policies: Registry, n: nat)
    requires events != [] && n <= |events|
    requires AllGovern(events, policies, n)
    ensures TransitionsOf(events[..n]) != [] ==> TransitionsOf(events[..n])[0].0.prior == events[0].governing
    ensures TransitionsOf(events[..n]) == [] ==> ActiveBefore(events, n) == events[0].governing
  {
    if n > 0 {
      FirstTransition(events, policies, n - 1);
      assert events[..n][..n - 1] == events[..n - 1];
      assert Governs(events, policies, n - 1);
    }
  }

  ghost predicate DistinctHashes(registered: seq<Policy>)
  {
    forall i, j :: 0 <= i < j < |registered| ==> registered[i].hash != registered[j].hash
  }

  /** After the first replay, the second one adds exactly three demands: no hash is registered
      twice, every rollback target was in force before, and every registered policy was in force
      at some time. */
  lemma {:induction false} SecondReplayExactly(events: seq<PolicyEvent>, registered: seq<Policy>, active: Option<Policy>)
    requires HistoricalSequence(events, RowMap(PolicyRows(registered)), active)
    requires events != [] && TransitionsOf(events) != []
    ensures TransitionsOf(events)[0].0.prior == events[0].governing
    ensures ProjectionSequence(registered, active, TransitionsOf(events)) <==>
      && DistinctHashes(registered)
      && AllRollBack(events, |events|)
      && (forall i :: 0 <= i < |registered| ==> registered[i].hash in EverActive(events, |events|))
  {
    hide Fold, AddRows, RowMap, PolicyRows, Governs, RollsBackToKnown, EverActive, ActiveBefore, TransitionsOf, Restrict, RebuildsTo, HistoricalSequence;
    var policies, n := RowMap(PolicyRows(registered)), |events|;
    assert events[..n] == events;
    HistoricalExactly(events, policies, active);
    FirstTransition(events, policies, n);
    RegistryIs(registered);
    RebuildsToExactly(events, policies, active);
    RestrictedAll(registered, policies, EverActive(events, n));
  }

  lemma RegistryIs(registered: seq<Policy>)
    ensures AddRows(map[], PolicyRows(registered)) == if DistinctHashes(registered) then Ok(RowMap(PolicyRows(registered))) else Raised
  {
    hide AddRows, RowMap;
    var rows := PolicyRows(registered);
    AddRowsExactly(map[], rows);
    assert forall i :: 0 <= i < |rows| ==> rows[i].0 == registered[i].hash;
    if DistinctHashes(registered) {
      assert DistinctRows(rows);
    }
    if DistinctRows(rows) {
      forall i, j | 0 <= i < j < |registered|
        ensures registered[i].hash != registered[j].hash
      {
        assert rows[i].0 != rows[j].0;
      }
    }
    assert map[] + RowMap(rows) == RowMap(rows);
  }

  lemma {:induction false} RebuildsToExactly(events: seq<PolicyEvent>, policies: Registry, active: Option<Policy>)
    requires events != [] && events[0].governing in policies && AllGovern(events, policies, |events|) && TransitionsOf(events) != []
    requires TransitionsOf(events)[0].0.prior == events[0].governing && active.Some? && active.value.hash == ActiveBefore(events, |events|)
    ensures RebuildsTo(policies, active, TransitionsOf(events))
       <==> AllRollBack(events, |events|) && Restrict(policies, EverActive(events, |events|)) == policies
  {
    hide Fold, AllGovern, AllRollBack;
    var n := |events|;
    assert events[..n] == events;
    RebuildFollows(events, policies, n);
    assert Restrict(policies, {events[0].governing}) == map[events[0].governing := policies[events[0].governing]];
  }

  lemma RestrictedAll(registered: seq<Policy>, policies: Registry, hashes: set<Digest>)
    requires policies == RowMap(PolicyRows(registered))
    ensures Restrict(policies, hashes) == policies <==> forall i :: 0 <= i < |registered| ==> registered[i].hash in hashes
  {
    var rows := PolicyRows(registered);
    RowMapKeys(rows);
    forall i | 0 <= i < |registered|
      ensures registered[i].hash in policies
    {
      assert rows[i].0 == registered[i].hash;
    }
    if Restrict(policies, hashes) == policies {
      forall i | 0 <= i < |registered|
        ensures registered[i].hash in hashes
      {
        assert registered[i].hash in Restrict(policies, hashes);
      }
    }
  }

  lemma DecodedRegistry(policyHash: PolicyHash, registered: seq<Policy>, active: Option<Policy>, hash: Digest)
    requires AllDecode(policyHash, registered, active) && hash in RowMap(PolicyRows(registered))
    ensures RowMap(PolicyRows(registered))[hash].hash == hash && Decodes(policyHash, RowMap(PolicyRows(registered))[hash])
  {
    RowMapMembers(PolicyRows(registered), hash);
  }

  lemma {:induction false} RowMapMembers<K, V>(rows: seq<(K, V)>, key: K)
    requires key in RowMap(rows)
    ensures (key, RowMap(rows)[key]) in rows
  {
    if rows[|rows| - 1].0 != key {
      RowMapMembers(rows[..|rows| - 1], key);
    }
  }

  /** Two registries that both pass for the same log with a transition are the same registry: they
      hold the hashes ever in force, and a hash names one policy. */
  lemma LogDeterminesPolicies(policyHash: PolicyHash, events: seq<PolicyEvent>, registered: seq<Policy>, active: Option<Policy>,
                              other: seq<Policy>, otherActive: Option<Policy>)
    requires CollisionFree(policyHash) && AllDecode(policyHash, registered, active) && AllDecode(policyHash, other, otherActive)
    requires events != [] && TransitionsOf(events) != []
    requires HistoricalSequence(events, RowMap(PolicyRows(registered)), active) && ProjectionSequence(registered, active, TransitionsOf(events))
    requires HistoricalSequence(events, RowMap(PolicyRows(other)), otherActive) && ProjectionSequence(other, otherActive, TransitionsOf(events))
    ensures RowMap(PolicyRows(registered)) == RowMap(PolicyRows(other))
    ensures RowMap(PolicyRows(registered)).Keys == EverActive(events, |events|)
  {
    hide HistoricalSequence, ProjectionSequence, RowMap, PolicyRows, TransitionsOf, EverActive, AllDecode;
    var a, b := RowMap(PolicyRows(registered)), RowMap(PolicyRows(other));
    RegistryIsEverActive(events, registered, active);
    RegistryIsEverActive(events, other, otherActive);
    forall hash | hash in a
      ensures hash in b && a[hash] == b[hash]
    {
      assert hash in b.Keys;
      DecodedRegistry(policyHash, registered, active, hash);
      DecodedRegistry(policyHash, other, otherActive, hash);
    }
    assert a.Keys == b.Keys;
  }

  lemma {:induction false} RegistryIsEverActive(events: seq<PolicyEvent>, registered: seq<Policy>, active: Option<Policy>)
    requires events != [] && TransitionsOf(events) != []
    requires HistoricalSequence(events, RowMap(PolicyRows(registered)), active) && ProjectionSequence(registered, active, TransitionsOf(events))
    ensures RowMap(PolicyRows(registered)).Keys == EverActive(events, |events|)
    ensures AllGovern(events, RowMap(PolicyRows(registered)), |events|)
  {
    hide HistoricalSequence, ProjectionSequence, Governs, RowMap, TransitionsOf, AllRollBack, EverActive, DistinctHashes;
    var policies, rows := RowMap(PolicyRows(registered)), PolicyRows(registered);
    HistoricalExactly(events, policies, active);
    SecondReplayExactly(events, registered, active);
    EverActiveRegistered(events, policies, |events|);
    RowMapKeys(rows);
    forall hash | hash in policies
      ensures hash in EverActive(events, |events|)
    {
      var i :| 0 <= i < |rows| && rows[i].0 == hash;
      assert registered[i].hash == hash;
    }
  }
}
