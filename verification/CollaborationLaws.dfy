/** What the engine's rules say in terms of the recorded histories: who comes next, when a session
    ends, and exactly what a request, a contribution and a topology event need. */
module CollaborationLaws {
  import opened Common
  import opened CollaborationEngine
  import opened CollaborationValidation
  import opened CollaborationService

  // ---- counting in a history ----

  /** The positions at which a peer contributed. */
  function TurnsOf(cs: seq<Contribution>, p: Id): set<nat>
  {
    set i: nat | i < |cs| && cs[i].peer == p
  }

  function Occurrences(xs: seq<Digest>, d: Digest): set<nat>
  {
    set i: nat | i < |xs| && xs[i] == d
  }

  /** The positions at which a topology is again what it was two steps before. */
  function Returns(h: Hashing, history: seq<Topology>): set<nat>
  {
    set i: nat | i < |history| && ReturnsAt(h, history, i)
  }

  predicate ReturnsAt(h: Hashing, history: seq<Topology>, i: nat)
    requires i < |history|
  {
    i >= 2 && h.topology(history[i]) == h.topology(history[i - 2])
  }

  lemma {:induction false} TurnsAreCounted(cs: seq<Contribution>, p: Id)
    ensures multiset(PeerIds(cs))[p] == |TurnsOf(cs, p)|
  {
    hide PeerIds, TurnsOf;
    if cs == [] {
      NoTurns(p);
    } else {
      var n := |cs| - 1;
      TurnsAreCounted(cs[..n], p);
      assert cs == cs[..n] + [cs[n]];
      PeersSnoc(cs[..n], cs[n]);
      OneMoreTurn(cs, p);
    }
  }

  lemma NoTurns(p: Id)
    ensures multiset(PeerIds([]))[p] == 0 && |TurnsOf([], p)| == 0
  {
    assert TurnsOf([], p) == {};
  }

  lemma OneMoreTurn(cs: seq<Contribution>, p: Id)
    requires cs != []
    ensures |TurnsOf(cs, p)| == |TurnsOf(cs[..|cs| - 1], p)| + (if cs[|cs| - 1].peer == p then 1 else 0)
  {
    var n := |cs| - 1;
    assert TurnsOf(cs, p) == TurnsOf(cs[..n], p) + (if cs[n].peer == p then {n} else {});
  }

  lemma {:induction false} OccurrencesAreCounted(xs: seq<Digest>, d: Digest)
    ensures multiset(xs)[d] == |Occurrences(xs, d)|
  {
    if xs == [] {
      assert Occurrences(xs, d) == {};
    } else {
      var n := |xs| - 1;
      OccurrencesAreCounted(xs[..n], d);
      assert xs == xs[..n] + [xs[n]];
      assert Occurrences(xs, d) == Occurrences(xs[..n], d) + (if xs[n] == d then {n} else {});
    }
  }

  lemma {:induction false} ReturnsAreCounted(h: Hashing, history: seq<Topology>)
    ensures Churn(h, history) == |Returns(h, history)|
  {
    if |history| <= 2 {
      assert Returns(h, history) == {};
    } else {
      var n := |history| - 1;
      ReturnsAreCounted(h, history[..n]);
      assert Returns(h, history) == Returns(h, history[..n]) + (if h.topology(history[n]) == h.topology(history[n - 2]) then {n} else {});
    }
  }

  // ---- who may come next, and when a session ends ----

  /** An active peer with a turn left that the last contributor's enabled edges reach. */
  predicate MayFollow(s: Session, t: Topology, cs: seq<Contribution>, p: Id)
  {
    && p in t.active && |TurnsOf(cs, p)| < s.budget.maxPerPeer
    && (cs != [] ==> (cs[|cs| - 1].peer, p) in t.edges)
  }

  predicate Done(s: Session, cs: seq<Contribution>)
  {
    |cs| >= s.minContributions && (s.requiredKind.Some? ==> exists i :: 0 <= i < |cs| && Some(cs[i].kind) == s.requiredKind)
  }

  /** The limit behind a reason is reached. */
  predicate Reached(h: Hashing, st: State, reason: Reason)
  {
    var s, b, cs := st.session, st.session.budget, st.contributions;
    match reason
    case Completed => Done(s, cs)
    case MaxHopsReached => |cs| >= b.maxHops
    case MaxContributionsReached => |cs| >= b.maxContributions
    case PerPeerLimitReached => exists i :: 0 <= i < |cs| && |TurnsOf(cs, cs[i].peer)| >= b.maxPerPeer
    case TopologyChangeLimitReached => st.topologyEvents != [] && |st.topologyEvents| >= b.maxTopologyChanges
    case RepeatedStateLoop => exists i :: 0 <= i < |st.cycles| && |Occurrences(st.cycles, st.cycles[i])| > b.maxRepetitions + 1
    case TopologyChurn => |Returns(h, st.topologyHistory)| >= b.maxChurn
    case ContributionMonopoly => exists i :: 0 <= i < |cs| && |TurnsOf(cs, cs[i].peer)| as real > b.maxShare * |cs| as real
    case NoEligiblePeer => forall i :: 0 <= i < |s.roster| ==> !MayFollow(s, st.topology, cs, s.roster[i])
  }

  /** The order in which reasons are looked for. */
  const PRIORITY: seq<Reason> := [
    Completed, MaxHopsReached, MaxContributionsReached, PerPeerLimitReached, TopologyChangeLimitReached,
    RepeatedStateLoop, TopologyChurn, ContributionMonopoly, NoEligiblePeer]

  ghost predicate FirstReached(h: Hashing, st: State, reason: Reason)
  {
    exists k :: 0 <= k < |PRIORITY| && PRIORITY[k] == reason && Reached(h, st, reason)
                && forall j :: 0 <= j < k ==> !Reached(h, st, PRIORITY[j])
  }

  function Qualifies(s: Session, t: Topology, cs: seq<Contribution>): Id -> bool
  {
    (p: Id) => MayFollow(s, t, cs, p)
  }

  lemma {:induction false} FilterSame<T(!new)>(f: T -> bool, g: T -> bool, xs: seq<T>)
    requires forall x :: f(x) == g(x)
    ensures Filter(f, xs) == Filter(g, xs)
  {
    if xs != [] {
      FilterSame(f, g, xs[1..]);
    }
  }

  lemma EligibleQualify(s: Session, t: Topology, cs: seq<Contribution>)
    ensures EligiblePeers(s, t, multiset(PeerIds(cs)), LastPeer(cs)) == Filter(Qualifies(s, t, cs), s.roster)
  {
    var counts, last := multiset(PeerIds(cs)), LastPeer(cs);
    var keep := (p: Id) => p in t.active && counts[p] < s.budget.maxPerPeer && (last.Some? ==> (last.value, p) in t.edges);
    forall p: Id
      ensures keep(p) == Qualifies(s, t, cs)(p)
    {
      TurnsAreCounted(cs, p);
    }
    FilterSame(keep, Qualifies(s, t, cs), s.roster);
    assert EligiblePeers(s, t, counts, last) == Filter(keep, s.roster);
  }

  lemma {:induction false} FilterFirst<T(!new)>(keep: T -> bool, xs: seq<T>)
    ensures Filter(keep, xs) == [] <==> forall i :: 0 <= i < |xs| ==> !keep(xs[i])
    ensures forall x :: (Filter(keep, xs) != [] && Filter(keep, xs)[0] == x) <==> FirstKept(keep, xs, x)
  {
    if xs != [] {
      var rest := xs[1..];
      FilterFirst(keep, rest);
      assert forall i :: 0 < i < |xs| ==> xs[i] == rest[i - 1];
      assert forall i :: 0 <= i < |rest| ==> rest[i] == xs[i + 1];
      if keep(xs[0]) {
        assert FirstKept(keep, xs, xs[0]);
      } else {
        forall x
          ensures FirstKept(keep, rest, x) <==> FirstKept(keep, xs, x)
        {
          FirstKeptLater(keep, xs, x);
        }
      }
    }
  }

  ghost predicate FirstKept<T(!new)>(keep: T -> bool, xs: seq<T>, x: T)
  {
    exists i :: KeptFirstAt(keep, xs, i) && xs[i] == x
  }

  ghost predicate KeptFirstAt<T(!new)>(keep: T -> bool, xs: seq<T>, i: int)
  {
    0 <= i < |xs| && keep(xs[i]) && forall j :: 0 <= j < i ==> !keep(xs[j])
  }

  lemma FirstKeptLater<T(!new)>(keep: T -> bool, xs: seq<T>, x: T)
    requires xs != [] && !keep(xs[0])
    ensures FirstKept(keep, xs[1..], x) <==> FirstKept(keep, xs, x)
  {
    var rest := xs[1..];
    if i :| KeptFirstAt(keep, rest, i) && rest[i] == x {
      assert KeptFirstAt(keep, xs, i + 1);
    }
    if i :| KeptFirstAt(keep, xs, i) && xs[i] == x {
      assert KeptFirstAt(keep, rest, i - 1);
    }
  }

  lemma CompletedIsDone(s: Session, cs: seq<Contribution>)
    ensures IsCompleted(s, cs) <==> Done(s, cs)
  {
    if s.requiredKind.Some? {
      assert forall i :: 0 <= i < |cs| ==> Kinds(cs)[i] == cs[i].kind;
    }
  }

  lemma PeersAreCounted(cs: seq<Contribution>, p: Id)
    ensures multiset(PeerIds(cs))[p] == |TurnsOf(cs, p)|
    ensures p in multiset(PeerIds(cs)) <==> exists i :: 0 <= i < |cs| && cs[i].peer == p
  {
    TurnsAreCounted(cs, p);
    assert p in multiset(PeerIds(cs)) <==> p in PeerIds(cs);
    if i :| 0 <= i < |cs| && cs[i].peer == p {
      assert PeerIds(cs)[i] == p;
    }
  }

  lemma PerPeerReached(h: Hashing, st: State)
    ensures (exists p | p in multiset(PeerIds(st.contributions)) :: multiset(PeerIds(st.contributions))[p] >= st.session.budget.maxPerPeer)
       <==> Reached(h, st, PerPeerLimitReached)
  {
    hide TurnsOf, PeerIds;
    var cs, counts := st.contributions, multiset(PeerIds(st.contributions));
    if p :| p in counts && counts[p] >= st.session.budget.maxPerPeer {
      PeersAreCounted(cs, p);
    }
    if i :| 0 <= i < |cs| && |TurnsOf(cs, cs[i].peer)| >= st.session.budget.maxPerPeer {
      PeersAreCounted(cs, cs[i].peer);
    }
  }

  lemma ShareReached(h: Hashing, st: State)
    ensures (exists p | p in multiset(PeerIds(st.contributions)) ::
               multiset(PeerIds(st.contributions))[p] as real > st.session.budget.maxShare * |st.contributions| as real)
       <==> Reached(h, st, ContributionMonopoly)
  {
    hide TurnsOf, PeerIds;
    var cs, counts, bound := st.contributions, multiset(PeerIds(st.contributions)), st.session.budget.maxShare * |st.contributions| as real;
    if p :| p in counts && counts[p] as real > bound {
      PeersAreCounted(cs, p);
    }
    if i :| 0 <= i < |cs| && |TurnsOf(cs, cs[i].peer)| as real > bound {
      PeersAreCounted(cs, cs[i].peer);
    }
  }

  lemma LoopReached(h: Hashing, st: State)
    ensures (exists d | d in multiset(st.cycles) :: multiset(st.cycles)[d] - 1 > st.session.budget.maxRepetitions)
       <==> Reached(h, st, RepeatedStateLoop)
  {
    forall d
      ensures multiset(st.cycles)[d] == |Occurrences(st.cycles, d)| && (d in multiset(st.cycles) <==> d in st.cycles)
    {
      OccurrencesAreCounted(st.cycles, d);
    }
  }

  lemma NoneReached(h: Hashing, st: State)
    ensures FirstEligible(st.session, st.topology, multiset(PeerIds(st.contributions)), LastPeer(st.contributions)).None?
       <==> Reached(h, st, NoEligiblePeer)
  {
    EligibleQualify(st.session, st.topology, st.contributions);
    FilterFirst(Qualifies(st.session, st.topology, st.contributions), st.session.roster);
  }

  /** The first limit reached, in the order of priority, is the reason. */
  function FirstOf(h: Hashing, st: State, k: nat): Option<Reason>
    requires k <= |PRIORITY|
    decreases |PRIORITY| - k
  {
    if k == |PRIORITY| then None else if Reached(h, st, PRIORITY[k]) then Some(PRIORITY[k]) else FirstOf(h, st, k + 1)
  }

  lemma {:induction false} FirstOfIsFirst(h: Hashing, st: State, k: nat, reason: Reason)
    requires k <= |PRIORITY| && forall j :: 0 <= j < k ==> !Reached(h, st, PRIORITY[j])
    ensures FirstOf(h, st, k) == Some(reason) <==> FirstReached(h, st, reason)
    decreases |PRIORITY| - k
  {
    hide Reached;
    if k < |PRIORITY| {
      if Reached(h, st, PRIORITY[k]) {
        assert FirstReached(h, st, PRIORITY[k]);
      } else {
        FirstOfIsFirst(h, st, k + 1, reason);
      }
    }
  }

  lemma TerminationIsFirst(h: Hashing, st: State)
    requires st.completed == IsCompleted(st.session, st.contributions)
    ensures TerminationOf(h, st) == FirstOf(h, st, 0)
  {
    CompletedIsDone(st.session, st.contributions);
    PerPeerReached(h, st);
    ShareReached(h, st);
    LoopReached(h, st);
    ReturnsAreCounted(h, st.topologyHistory);
    NoneReached(h, st);
    hide FirstEligible, Churn, TurnsOf, Occurrences, Returns, PeerIds, Done, IsCompleted, MayFollow, LastPeer;
    UnrolledFirst(h, st);
  }

  lemma UnrolledFirst(h: Hashing, st: State)
    ensures FirstOf(h, st, 0) ==
      if Reached(h, st, Completed) then Some(Completed)
      else if Reached(h, st, MaxHopsReached) then Some(MaxHopsReached)
      else if Reached(h, st, MaxContributionsReached) then Some(MaxContributionsReached)
      else if Reached(h, st, PerPeerLimitReached) then Some(PerPeerLimitReached)
      else if Reached(h, st, TopologyChangeLimitReached) then Some(TopologyChangeLimitReached)
      else if Reached(h, st, RepeatedStateLoop) then Some(RepeatedStateLoop)
      else if Reached(h, st, TopologyChurn) then Some(TopologyChurn)
      else if Reached(h, st, ContributionMonopoly) then Some(ContributionMonopoly)
      else if Reached(h, st, NoEligiblePeer) then Some(NoEligiblePeer)
      else None
  {
    hide Reached;
    assert FirstOf(h, st, 9) == None;
    assert FirstOf(h, st, 8) == if Reached(h, st, NoEligiblePeer) then Some(NoEligiblePeer) else FirstOf(h, st, 9);
    assert FirstOf(h, st, 7) == if Reached(h, st, ContributionMonopoly) then Some(ContributionMonopoly) else FirstOf(h, st, 8);
    assert FirstOf(h, st, 6) == if Reached(h, st, TopologyChurn) then Some(TopologyChurn) else FirstOf(h, st, 7);
    assert FirstOf(h, st, 5) == if Reached(h, st, RepeatedStateLoop) then Some(RepeatedStateLoop) else FirstOf(h, st, 6);
    assert FirstOf(h, st, 4) == if Reached(h, st, TopologyChangeLimitReached) then Some(TopologyChangeLimitReached) else FirstOf(h, st, 5);
    assert FirstOf(h, st, 3) == if Reached(h, st, PerPeerLimitReached) then Some(PerPeerLimitReached) else FirstOf(h, st, 4);
  }

  /** A session ends for a reason exactly when its limit is reached and no limit of higher priority
      is. */
  lemma TerminationExactly(h: Hashing, st: State, reason: Reason)
    requires st.completed == IsCompleted(st.session, st.contributions)
    ensures TerminationOf(h, st) == Some(reason) <==> FirstReached(h, st, reason)
    ensures TerminationOf(h, st).None? <==> forall other :: !Reached(h, st, other)
  {
    hide TerminationOf, Reached, FirstReached;
    TerminationIsFirst(h, st);
    FirstOfIsFirst(h, st, 0, reason);
    NothingReached(h, st);
  }

  lemma NothingReached(h: Hashing, st: State)
    ensures FirstOf(h, st, 0).None? <==> forall other :: !Reached(h, st, other)
  {
    hide Reached, FirstOf;
    UnrolledFirst(h, st);
    if FirstOf(h, st, 0).None? {
      forall other
        ensures !Reached(h, st, other)
      {
        match other
        case Completed =>
        case MaxHopsReached =>
        case MaxContributionsReached =>
        case PerPeerLimitReached =>
        case TopologyChangeLimitReached =>
        case NoEligiblePeer =>
        case RepeatedStateLoop =>
        case TopologyChurn =>
        case ContributionMonopoly =>
      }
    }
  }

  /** The first peer on the roster that may follow. */
  ghost predicate ComesNext(s: Session, t: Topology, cs: seq<Contribution>, p: Id)
  {
    exists i :: 0 <= i < |s.roster| && s.roster[i] == p && MayFollow(s, t, cs, p)
                && forall j :: 0 <= j < i ==> !MayFollow(s, t, cs, s.roster[j])
  }

  /** Exactly who comes next: nobody once a limit is reached, and otherwise the first peer on the
      roster that may follow the last contributor. */
  lemma NextPeerExactly(h: Hashing, st: State, p: Id)
    requires st.completed == IsCompleted(st.session, st.contributions)
    ensures NextPeer(h, st) == Some(p) <==>
      (forall reason :: !Reached(h, st, reason)) && ComesNext(st.session, st.topology, st.contributions, p)
  {
    hide Reached, TerminationOf, MayFollow, PeerIds, LastPeer;
    var s, t, cs := st.session, st.topology, st.contributions;
    TerminationExactly(h, st, Completed);
    EligibleQualify(s, t, cs);
    FilterFirst(Qualifies(s, t, cs), s.roster);
    assert FirstKept(Qualifies(s, t, cs), s.roster, p) <==> ComesNext(s, t, cs, p) by {
      if i :| KeptFirstAt(Qualifies(s, t, cs), s.roster, i) && s.roster[i] == p {
        assert MayFollow(s, t, cs, p);
      }
      if ComesNext(s, t, cs, p) {
        var i :| 0 <= i < |s.roster| && s.roster[i] == p && MayFollow(s, t, cs, p) && forall j :: 0 <= j < i ==> !MayFollow(s, t, cs, s.roster[j]);
        assert KeptFirstAt(Qualifies(s, t, cs), s.roster, i);
      }
    }
  }

  // ---- resources, one category at a time ----

  datatype Category = Cost | Compute | Tokens | Elapsed | ToolCalls | Interventions

  function Amount(r: Resources, f: Category): real
  {
    match f
    case Cost => r.cost
    case Compute => r.compute
    case Tokens => r.tokens as real
    case Elapsed => r.elapsed
    case ToolCalls => r.toolCalls as real
    case Interventions => r.interventions as real
  }

  function Spent(usages: seq<Resources>, f: Category): real
  {
    if usages == [] then 0.0 else Spent(usages[..|usages| - 1], f) + Amount(usages[|usages| - 1], f)
  }

  lemma {:induction false} SumIsSpent(usages: seq<Resources>, f: Category)
    ensures Amount(Sum(usages), f) == Spent(usages, f)
  {
    if usages != [] {
      SumIsSpent(usages[..|usages| - 1], f);
    }
  }

  lemma WithinExactly(used: Resources, budget: Resources)
    ensures Within(used, budget) <==> forall f :: Amount(used, f) <= Amount(budget, f)
  {
    if forall f :: Amount(used, f) <= Amount(budget, f) {
      assert Amount(used, Cost) <= Amount(budget, Cost) && Amount(used, Compute) <= Amount(budget, Compute);
      assert Amount(used, Tokens) <= Amount(budget, Tokens) && Amount(used, Elapsed) <= Amount(budget, Elapsed);
      assert Amount(used, ToolCalls) <= Amount(budget, ToolCalls) && Amount(used, Interventions) <= Amount(budget, Interventions);
    }
  }

  lemma RemainingExactly(remaining: Resources, budget: Resources, usages: seq<Resources>)
    ensures remaining == Minus(budget, Sum(usages)) <==> forall f :: Amount(remaining, f) == Amount(budget, f) - Spent(usages, f)
  {
    forall f ensures Amount(Sum(usages), f) == Spent(usages, f)
    {
      SumIsSpent(usages, f);
    }
    hide Spent, Sum;
    var left := Minus(budget, Sum(usages));
    forall f ensures Amount(left, f) == Amount(budget, f) - Spent(usages, f)
    {
      assert Amount(Sum(usages), f) == Spent(usages, f);
    }
    if forall f :: Amount(remaining, f) == Amount(left, f) {
      assert Amount(remaining, Cost) == Amount(left, Cost) && Amount(remaining, Compute) == Amount(left, Compute);
      assert Amount(remaining, Tokens) == Amount(left, Tokens) && Amount(remaining, Elapsed) == Amount(left, Elapsed);
      assert Amount(remaining, ToolCalls) == Amount(left, ToolCalls) && Amount(remaining, Interventions) == Amount(left, Interventions);
    }
  }

  // ---- lineage ----

  predicate Known(cs: seq<Contribution>, id: Id)
  {
    exists i :: 0 <= i < |cs| && cs[i].contributionId == id
  }

  /** There is a chain of k ancestors above a contribution with these parents, each earlier than the
      one it is a parent of. */
  ghost predicate Ancestry(cs: seq<Contribution>, parents: seq<Id>, k: nat)
    decreases k
  {
    k == 0 || exists i :: 0 <= i < |cs| && cs[i].contributionId in parents && Ancestry(cs[..i], cs[i].parents, k - 1)
  }

  ghost predicate LineageKept(cs: seq<Contribution>)
  {
    && (forall i, j :: 0 <= i < j < |cs| ==> cs[i].contributionId != cs[j].contributionId)
    && (forall i, p :: 0 <= i < |cs| && p in cs[i].parents ==> Known(cs[..i], p))
  }

  lemma {:induction false} DepthsAre(cs: seq<Contribution>, i: nat)
    requires LineageKept(cs) && i < |cs|
    ensures cs[i].contributionId in Depths(cs) && Depths(cs)[cs[i].contributionId] == DepthBelow(Depths(cs[..i]), cs[i].parents)
  {
    var n := |cs| - 1;
    if i < n {
      LineagePrefix(cs, n);
      DepthsAre(cs[..n], i);
      assert cs[..n][..i] == cs[..i];
    }
  }

  lemma LineagePrefix(cs: seq<Contribution>, n: nat)
    requires LineageKept(cs) && n <= |cs|
    ensures LineageKept(cs[..n])
  {
    forall i, p | 0 <= i < n && p in cs[..n][i].parents
      ensures Known(cs[..n][..i], p)
    {
      assert cs[..n][..i] == cs[..i];
    }
  }

  lemma {:induction false} DeepestExactly(depths: map<Id, int>, parents: seq<Id>, k: int)
    requires parents != [] && k >= 0 && forall p :: p in parents ==> p in depths && depths[p] >= 0
    ensures Deepest(depths, parents) >= k <==> exists p :: p in parents && depths[p] >= k
  {
    if |parents| == 1 {
      assert Deepest(depths, parents[1..]) == 0;
      assert parents[0] in parents;
    } else {
      DeepestExactly(depths, parents[1..], k);
      assert parents == [parents[0]] + parents[1..];
    }
  }

  /** The depth below given parents is the length of the longest chain of ancestors. */
  lemma {:induction false} DepthExactly(cs: seq<Contribution>, parents: seq<Id>, k: nat)
    requires LineageKept(cs) && forall p :: p in parents ==> Known(cs, p)
    ensures DepthBelow(Depths(cs), parents) >= k <==> Ancestry(cs, parents, k)
    decreases k
  {
    DepthsOfKnown(cs, parents);
    if k > 0 && parents != [] {
      DeepestExactly(Depths(cs), parents, k - 1);
      forall i | 0 <= i < |cs|
        ensures Depths(cs)[cs[i].contributionId] >= k - 1 <==> Ancestry(cs[..i], cs[i].parents, k - 1)
      {
        DepthsAre(cs, i);
        LineagePrefix(cs, i);
        DepthExactly(cs[..i], cs[i].parents, k - 1);
      }
      if p :| p in parents && Depths(cs)[p] >= k - 1 {
        var i :| 0 <= i < |cs| && cs[i].contributionId == p;
        assert Ancestry(cs[..i], cs[i].parents, k - 1);
      }
    }
  }

  lemma DepthsOfKnown(cs: seq<Contribution>, parents: seq<Id>)
    requires LineageKept(cs) && forall p :: p in parents ==> Known(cs, p)
    ensures forall i :: 0 <= i < |cs| ==> cs[i].contributionId in Depths(cs)
    ensures forall p :: p in parents ==> p in Depths(cs) && Depths(cs)[p] >= 0
    ensures DepthBelow(Depths(cs), parents) >= 0
  {
    forall i | 0 <= i < |cs|
      ensures cs[i].contributionId in Depths(cs) && Depths(cs)[cs[i].contributionId] >= 0
    {
      DepthsAre(cs, i);
      DepthNotNegative(Depths(cs[..i]), cs[i].parents);
    }
    DepthNotNegative(Depths(cs), parents);
  }

  lemma {:induction false} DepthNotNegative(depths: map<Id, int>, parents: seq<Id>)
    ensures Deepest(depths, parents) >= 0 && DepthBelow(depths, parents) >= 0
  {
    if parents != [] {
      DepthNotNegative(depths, parents[1..]);
    }
  }

  // ---- exactly what a request and its answer need ----

  predicate Subset(xs: set<Id>, ys: set<Id>)
  {
    forall x :: x in xs ==> x in ys
  }

  /** A request to the peer who comes next, within the session's scope, that states what is left. */
  ghost predicate MayAsk(h: Hashing, st: State, r: Request)
  {
    var s, cs := st.session, st.contributions;
    && (forall reason :: !Reached(h, st, reason)) && ComesNext(s, st.topology, cs, r.recipient)
    && r.sequence == |cs| + 1 && r.sender == (if cs == [] then None else Some(cs[|cs| - 1].peer))
    && r.capability in s.capabilities && Subset(r.tools, s.allowedTools) && Subset(r.artifacts, s.allowedArtifacts)
    && (r.parent.Some? ==> Known(cs, r.parent.value))
    && (forall f :: Amount(r.remaining, f) == Amount(s.budget.resources, f) - Spent(st.usageHistory, f))
  }

  /** The asked peer's new contribution, within scope and budget, on earlier contributions only. */
  ghost predicate MayAnswer(st: State, r: Request, c: Contribution, usage: Resources)
    requires st.session.budget.maxParentDepth >= 0
  {
    var s, cs := st.session, st.contributions;
    && c.sessionId == s.sessionId && c.requestId == r.requestId && c.peer == r.recipient && !Known(cs, c.contributionId)
    && c.kind in s.allowedKinds && Subset(c.tools, s.allowedTools) && Subset(c.artifacts, s.allowedArtifacts)
    && (r.parent.Some? ==> r.parent.value in c.parents) && (forall p :: p in c.parents ==> Known(cs, p))
    && !Ancestry(cs, c.parents, s.budget.maxParentDepth + 1)
    && (forall f :: Spent(st.usageHistory + [usage], f) <= Amount(s.budget.resources, f))
  }

  lemma KnownIds(cs: seq<Contribution>, id: Id)
    ensures id in ContributionIds(cs) <==> Known(cs, id)
  {
    if i :| 0 <= i < |cs| && cs[i].contributionId == id {
      assert cs[i] in cs;
    }
  }

  lemma ValidLineage(st: State)
    requires LengthsValid(st) && ExchangesValid(st)
    ensures LineageKept(st.contributions)
  {
    hide DepthBelow, Depths, Within, Sum, RequestIds;
    var cs := st.contributions;
    forall i | 0 <= i < |cs|
      ensures cs[i].contributionId !in ContributionIds(cs[..i]) && forall p :: p in cs[i].parents ==> p in ContributionIds(cs[..i])
    {
      assert ExchangeBinds(st.session, i, st.requests[..i], cs[..i], st.usageHistory[..i], st.requests[i], cs[i], st.usageHistory[i]);
    }
    forall i, j | 0 <= i < j < |cs|
      ensures cs[i].contributionId != cs[j].contributionId
    {
      assert cs[..j][i] == cs[i] && cs[i] in cs[..j];
    }
    forall i, p | 0 <= i < |cs| && p in cs[i].parents
      ensures Known(cs[..i], p)
    {
      KnownIds(cs[..i], p);
    }
  }

  lemma SpentWithinBudget(st: State)
    requires ValidSession(st.session) && LengthsValid(st) && ExchangesValid(st)
    ensures Within(Sum(st.usageHistory), st.session.budget.resources)
  {
    var n := |st.usageHistory| - 1;
    if n >= 0 {
      hide ValidSession, DepthBelow, Depths, ContributionIds, RequestIds, ParentsDeclared, Within;
      assert ExchangeBinds(st.session, n, st.requests[..n], st.contributions[..n], st.usageHistory[..n], st.requests[n], st.contributions[n], st.usageHistory[n]);
      assert Sum(st.usageHistory) == Plus(Sum(st.usageHistory[..n]), st.usageHistory[n]);
    }
  }

  lemma UsageFits(usages: seq<Resources>, budget: Resources)
    ensures Within(Sum(usages), budget) <==> forall f :: Spent(usages, f) <= Amount(budget, f)
  {
    WithinExactly(Sum(usages), budget);
    hide Within, Sum, Spent;
    forall f ensures Amount(Sum(usages), f) == Spent(usages, f)
    {
      SumIsSpent(usages, f);
    }
  }

  lemma RequestSide(h: Hashing, st: State, r: Request)
    requires st.completed == IsCompleted(st.session, st.contributions)
    ensures MayAsk(h, st, r) <==>
      && TerminationOf(h, st).None? && NextPeer(h, st) == Some(r.recipient) && r.sequence == |st.contributions| + 1
      && r.sender == LastPeer(st.contributions) && r.capability in st.session.capabilities
      && r.tools <= st.session.allowedTools && r.artifacts <= st.session.allowedArtifacts
      && (r.parent.Some? ==> r.parent.value in ContributionIds(st.contributions))
      && r.remaining == Minus(st.session.budget.resources, Sum(st.usageHistory))
  {
    hide Reached, TerminationOf, NextPeer, ComesNext, ContributionIds, Known, Spent, Sum;
    TerminationExactly(h, st, Completed);
    NextPeerExactly(h, st, r.recipient);
    RemainingExactly(r.remaining, st.session.budget.resources, st.usageHistory);
    if r.parent.Some? {
      KnownIds(st.contributions, r.parent.value);
    }
  }

  lemma ParentsExactly(cs: seq<Contribution>, r: Request, c: Contribution)
    requires r.parent.Some? ==> Known(cs, r.parent.value)
    ensures ParentsDeclared(ContributionIds(cs), r, c) <==>
      (r.parent.Some? ==> r.parent.value in c.parents) && (forall p :: p in c.parents ==> Known(cs, p))
  {
    hide Known, ContributionIds;
    forall p ensures p in ContributionIds(cs) <==> Known(cs, p)
    {
      KnownIds(cs, p);
    }
  }

  lemma AnswerSide(st: State, r: Request, c: Contribution, usage: Resources)
    requires ValidSession(st.session) && LengthsValid(st) && ExchangesValid(st)
    requires r.parent.Some? ==> Known(st.contributions, r.parent.value)
    ensures MayAnswer(st, r, c, usage) <==>
      && c.sessionId == st.session.sessionId && c.requestId == r.requestId && c.peer == r.recipient
      && c.contributionId !in ContributionIds(st.contributions) && c.kind in st.session.allowedKinds
      && c.tools <= st.session.allowedTools && c.artifacts <= st.session.allowedArtifacts
      && ParentsDeclared(ContributionIds(st.contributions), r, c)
      && DepthBelow(Depths(st.contributions), c.parents) <= st.session.budget.maxParentDepth
      && Within(Sum(st.usageHistory + [usage]), st.session.budget.resources)
  {
    hide ExchangesValid, LengthsValid, LineageKept, Ancestry, Known, ContributionIds, Depths, DepthBelow, Within, Sum, Spent, ParentsDeclared, Amount;
    ValidLineage(st);
    KnownIds(st.contributions, c.contributionId);
    ParentsExactly(st.contributions, r, c);
    UsageFits(st.usageHistory + [usage], st.session.budget.resources);
    if forall p :: p in c.parents ==> Known(st.contributions, p) {
      DepthExactly(st.contributions, c.parents, st.session.budget.maxParentDepth + 1);
    }
  }

  ghost predicate NewRequestId(st: State, id: Id)
  {
    forall i :: 0 <= i < |st.requests| ==> st.requests[i].requestId != id
  }

  lemma NewRequestIdExactly(st: State, id: Id)
    ensures NewRequestId(st, id) <==> id !in RequestIds(st.requests)
  {
    assert forall i :: 0 <= i < |st.requests| ==> RequestIds(st.requests)[i] == st.requests[i].requestId;
  }

  /** From a valid state an exchange is built exactly when the request may be asked, the contribution
      answers it, and the request id is new. */
  lemma ContributionAccepted(h: Hashing, st: State, r: Request, c: Contribution, usage: Resources)
    requires ValidSession(st.session) && Validates(h, st)
    ensures st.completed == IsCompleted(st.session, st.contributions) && st.session.budget.maxParentDepth >= 0
    ensures Advance(h, st.session, st, r, c, usage).Ok? <==>
      r.sessionId == st.session.sessionId && NewRequestId(st, r.requestId) && MayAsk(h, st, r) && MayAnswer(st, r, c, usage)
  {
    AdvanceExactly(h, st, r, c, usage);
    ValidParts(h, st);
    SpentWithinBudget(st);
    NewRequestIdExactly(st, r.requestId);
    RequestSide(h, st, r);
    if r.parent.Some? {
      KnownIds(st.contributions, r.parent.value);
    }
    if r.parent.Some? ==> Known(st.contributions, r.parent.value) {
      AnswerSide(st, r, c, usage);
    }
    ChecksExactly(h, st, r, c, usage);
    hide ValidSession, Validates, Advance, ExchangeChecks, MayAsk, MayAnswer, NewRequestId, RequestIds, Known, ContributionIds, TerminationOf, NextPeer,
         LastPeer, Within, Sum, ParentsDeclared, Depths, DepthBelow, Minus, IsCompleted;
  }

  lemma ValidParts(h: Hashing, st: State)
    requires ValidSession(st.session) && Validates(h, st)
    ensures LengthsValid(st) && ExchangesValid(st) && st.completed == IsCompleted(st.session, st.contributions)
    ensures st.session.budget.maxParentDepth >= 0
  {}

  lemma ChecksExactly(h: Hashing, st: State, r: Request, c: Contribution, usage: Resources)
    requires Within(Sum(st.usageHistory), st.session.budget.resources) && |st.requests| == |st.contributions|
    ensures ExchangeChecks(h, st.session, st, r, c, usage) <==>
      && r.sessionId == st.session.sessionId
      && TerminationOf(h, st).None? && NextPeer(h, st) == Some(r.recipient) && r.sequence == |st.contributions| + 1
      && r.sender == LastPeer(st.contributions) && r.capability in st.session.capabilities
      && r.tools <= st.session.allowedTools && r.artifacts <= st.session.allowedArtifacts
      && r.remaining == Minus(st.session.budget.resources, Sum(st.usageHistory))
      && c.sessionId == st.session.sessionId && c.requestId == r.requestId && c.peer == r.recipient
      && c.contributionId !in ContributionIds(st.contributions) && c.kind in st.session.allowedKinds
      && c.tools <= st.session.allowedTools && c.artifacts <= st.session.allowedArtifacts
      && ParentsDeclared(ContributionIds(st.contributions), r, c)
      && DepthBelow(Depths(st.contributions), c.parents) <= st.session.budget.maxParentDepth
      && Within(Sum(st.usageHistory + [usage]), st.session.budget.resources)
  {
    hide TerminationOf, NextPeer, LastPeer, Minus, Sum, Within, ContributionIds, ParentsDeclared, Depths, DepthBelow;
  }

  /** The request handler accepts exactly a request that may be asked, with a new id, when none is
      waiting for its answer. */
  lemma RequestAccepted(h: Hashing, s: Session, history: seq<Record>, r: Request)
    requires ValidSession(s) && Rebuild(EngineOf(h), s, history).Some?
    ensures
      var b := Rebuild(EngineOf(h), s, history).value;
      DecideRequest(EngineOf(h), s, b, r).Accepted? <==> b.pending.None? && NewRequestId(b.state, r.requestId) && MayAsk(h, b.state, r)
  {
    hide ValidSession, Validates, Rebuild, MayAsk, Lawful, NewRequestId;
    var b := Rebuild(EngineOf(h), s, history).value;
    EngineIsLawful(h);
    RebuildRetains(EngineOf(h), s, history);
    RebuildValidates(h, s, history);
    ValidParts(h, b.state);
    RequestSide(h, b.state, r);
    NewRequestIdExactly(b.state, r.requestId);
    RequestDecided(h, s, b, r);
    RetainedIds(s, history, b, r.requestId);
  }

  lemma RetainedIds(s: Session, history: seq<Record>, b: Rebuilt, id: Id)
    requires Retains(s, history, b)
    ensures b.state.session == s
    ensures id in b.requestIds <==> id in RequestIds(b.state.requests) || (b.pending.Some? && b.pending.value.requestId == id)
  {
    hide Paired, Exchanges, Events, DistinctRequests, ContributionsDistinct, EventIdsDistinct;
  }

  lemma RequestDecided(h: Hashing, s: Session, b: Rebuilt, r: Request)
    requires b.state.session == s
    ensures DecideRequest(EngineOf(h), s, b, r).Accepted? <==>
      && r.requestId !in b.requestIds && b.pending.None? && TerminationOf(h, b.state).None?
      && NextPeer(h, b.state) == Some(r.recipient) && r.sequence == |b.state.contributions| + 1
      && r.sender == LastPeer(b.state.contributions) && r.capability in s.capabilities
      && r.tools <= s.allowedTools && r.artifacts <= s.allowedArtifacts
      && (r.parent.Some? ==> r.parent.value in ContributionIds(b.state.contributions))
      && r.remaining == Minus(s.budget.resources, Sum(b.state.usageHistory))
  {
    hide TerminationOf, NextPeer, LastPeer, ContributionIds, Minus, Sum;
  }

  /** The contribution handler accepts exactly an answer to the waiting request that still fits. */
  lemma AnswerAccepted(h: Hashing, s: Session, history: seq<Record>, c: Contribution, usage: Resources)
    requires ValidSession(s) && Rebuild(EngineOf(h), s, history).Some?
    ensures
      var b := Rebuild(EngineOf(h), s, history).value;
      && b.state.session == s && s.budget.maxParentDepth >= 0
      && (DecideContribution(EngineOf(h), s, b, c, usage).Accepted? <==>
            && b.pending.Some? && b.pending.value.sessionId == s.sessionId
            && MayAsk(h, b.state, b.pending.value) && MayAnswer(b.state, b.pending.value, c, usage))
  {
    hide ValidSession, Validates, Rebuild, MayAsk, Lawful, NewRequestId, MayAnswer, Advance;
    var b := Rebuild(EngineOf(h), s, history).value;
    EngineIsLawful(h);
    RebuildRetains(EngineOf(h), s, history);
    RebuildValidates(h, s, history);
    ValidParts(h, b.state);
    RetainedContributions(s, history, b);
    if b.pending.Some? {
      ContributionAccepted(h, b.state, b.pending.value, c, usage);
      NewRequestIdExactly(b.state, b.pending.value.requestId);
      AdvancedIsOpen(h, b.state, b.pending.value, c, usage);
      AnswersFresh(b.state, b.pending.value, c, usage);
    }
    AnswerDecided(h, s, b, c, usage);
  }

  lemma RetainedContributions(s: Session, history: seq<Record>, b: Rebuilt)
    requires Retains(s, history, b)
    ensures b.contributionIds == ContributionIds(b.state.contributions)
    ensures b.pending.Some? ==> b.pending.value.requestId !in RequestIds(b.state.requests)
  {
    hide Paired, Exchanges, Events, DistinctRequests, ContributionsDistinct, EventIdsDistinct;
  }

  lemma AdvancedIsOpen(h: Hashing, st: State, r: Request, c: Contribution, usage: Resources)
    ensures Advance(h, st.session, st, r, c, usage).Ok? ==> TerminationOf(h, st).None?
  {
    hide Validates, TerminationOf;
  }

  lemma AnswersFresh(st: State, r: Request, c: Contribution, usage: Resources)
    requires st.session.budget.maxParentDepth >= 0
    ensures MayAnswer(st, r, c, usage) ==> c.requestId == r.requestId && c.contributionId !in ContributionIds(st.contributions)
  {
    KnownIds(st.contributions, c.contributionId);
    hide Ancestry, Spent, Amount, Known, ContributionIds;
  }

  lemma AnswerDecided(h: Hashing, s: Session, b: Rebuilt, c: Contribution, usage: Resources)
    ensures DecideContribution(EngineOf(h), s, b, c, usage).Accepted? <==>
      && TerminationOf(h, b.state).None? && c.contributionId !in b.contributionIds
      && b.pending.Some? && b.pending.value.requestId == c.requestId && Advance(h, s, b.state, b.pending.value, c, usage).Ok?
  {
    hide TerminationOf, Advance, Within, Sum;
  }

  // ---- exactly what a topology event needs, and what it does ----

  /** The peers and edges before and after an operation. */
  ghost predicate Effect(s: Session, t: Topology, op: Operation, t': Topology)
  {
    match op
    case Activate(p) =>
      && p in s.roster && p !in t.active && (forall q :: q in t'.active <==> q in t.active || q == p)
      && (forall e :: e in t'.edges <==> e in t.edges)
    case Deactivate(p) =>
      && p in s.roster && p in t.active && (forall q :: q in t'.active <==> q in t.active && q != p)
      && (forall e :: e in t'.edges <==> e in t.edges && e.0 != p && e.1 != p)
    case Enable(x) =>
      && x in s.declaredEdges && x.0 in t.active && x.1 in t.active && x !in t.edges && (forall q :: q in t'.active <==> q in t.active)
      && (forall e :: e in t'.edges <==> e in t.edges || e == x)
    case Disable(x) =>
      && x in s.declaredEdges && x.0 in t.active && x.1 in t.active && x in t.edges && (forall q :: q in t'.active <==> q in t.active)
      && (forall e :: e in t'.edges <==> e in t.edges && e != x)
  }

  lemma OperationExactly(s: Session, t: Topology, op: Operation, t': Topology)
    ensures ApplyOperation(s, t, op) == Ok(t') <==> Effect(s, t, op, t')
  {
    if Effect(s, t, op, t') {
      match op
      case Activate(p) => assert t'.active == t.active + {p} && t'.edges == t.edges;
      case Deactivate(p) =>
        assert t'.active == t.active - {p};
        assert t'.edges == set e | e in t.edges && e.0 != p && e.1 != p;
      case Enable(x) => assert t'.active == t.active && t'.edges == t.edges + {x};
      case Disable(x) => assert t'.active == t.active && t'.edges == t.edges - {x};
    }
  }

  /** From a valid state a topology event is built exactly when the session goes on, changes are left,
      the event continues the history, and its operation has the effect its hashes name. */
  lemma TopologyAccepted(h: Hashing, st: State, e: TopologyEvent, after: Topology)
    requires ValidSession(st.session) && Validates(h, st)
    ensures ApplyTopology(h, st.session, st, e).Ok? && ApplyTopology(h, st.session, st, e).value.topology == after <==>
      && (forall reason :: !Reached(h, st, reason)) && |st.topologyEvents| < st.session.budget.maxTopologyChanges
      && e.sessionId == st.session.sessionId && e.sequence == |st.topologyEvents| + 1
      && Effect(st.session, st.topology, e.operation, after)
      && e.before == h.topology(st.topology) && e.after == h.topology(after)
  {
    hide ValidSession, Validates, Reached, TerminationOf, Effect, ApplyOperation;
    ValidParts(h, st);
    TerminationExactly(h, st, Completed);
    ApplyTopologyExactly(h, st, e);
    OperationExactly(st.session, st.topology, e.operation, after);
  }

  // ---- over whole sessions ----

  /** The contributions of a history, in order. */
  function Answers(history: seq<Record>): seq<Contribution>
  {
    if history == [] then []
    else
      var last := history[|history| - 1];
      Answers(history[..|history| - 1]) + (if last.Answered? then [last.contribution] else [])
  }

  /** Active peers are on the roster; enabled edges are declared and join active peers. */
  ghost predicate TopologyFits(s: Session, t: Topology)
  {
    (forall p :: p in t.active ==> p in s.roster) && (forall e :: e in t.edges ==> e in s.declaredEdges && e.0 in t.active && e.1 in t.active)
  }

  /** The topologies of a session: the declared one first, each further one the effect of its event. */
  ghost predicate TopologiesFollow(s: Session, st: State)
  {
    && |st.topologyHistory| == |st.topologyEvents| + 1
    && (forall p :: p in st.topologyHistory[0].active <==> p in s.initialActive)
    && (forall e :: e in st.topologyHistory[0].edges <==> e in s.declaredEdges && e.0 in s.initialActive && e.1 in s.initialActive)
    && (forall k :: 0 <= k < |st.topologyEvents| ==>
          Effect(s, st.topologyHistory[k], st.topologyEvents[k].operation, st.topologyHistory[k + 1]))
  }

  lemma EffectFits(s: Session, t: Topology, op: Operation, t': Topology)
    requires TopologyFits(s, t) && Effect(s, t, op, t')
    ensures TopologyFits(s, t')
  {}

  lemma {:induction false} AllTopologiesFit(s: Session, st: State, k: nat)
    requires ValidSession(s) && TopologiesFollow(s, st) && k < |st.topologyHistory|
    ensures TopologyFits(s, st.topologyHistory[k])
  {
    if k > 0 {
      AllTopologiesFit(s, st, k - 1);
      EffectFits(s, st.topologyHistory[k - 1], st.topologyEvents[k - 1].operation, st.topologyHistory[k]);
    }
  }

  /** In every rebuilt session each topology is the effect of its event on the one before, and joins
      declared, active peers only. */
  lemma RebuiltTopologiesFollow(h: Hashing, s: Session, history: seq<Record>)
    requires ValidSession(s) && Rebuild(EngineOf(h), s, history).Some?
    ensures
      var st := Rebuild(EngineOf(h), s, history).value.state;
      && TopologiesFollow(s, st) && st.topologyEvents == Events(history)
      && (forall k :: 0 <= k < |st.topologyHistory| ==> TopologyFits(s, st.topologyHistory[k]))
  {
    hide Rebuild, Effect, ApplyOperation, TopologyFits, ValidSession, ReplayAuthentic, ExchangesValid, BudgetsValid, Lawful;
    var st := Rebuild(EngineOf(h), s, history).value.state;
    EngineIsLawful(h);
    RebuildRetains(EngineOf(h), s, history);
    RebuildValidates(h, s, history);
    forall k | 0 <= k < |st.topologyEvents|
      ensures Effect(s, st.topologyHistory[k], st.topologyEvents[k].operation, st.topologyHistory[k + 1])
    {
      assert EventBinds(h, s, k, st.topologyEvents[k], st.topologyHistory[k], st.topologyHistory[k + 1]);
      OperationExactly(s, st.topologyHistory[k], st.topologyEvents[k].operation, st.topologyHistory[k + 1]);
    }
    forall k | 0 <= k < |st.topologyHistory|
      ensures TopologyFits(s, st.topologyHistory[k])
    {
      AllTopologiesFit(s, st, k);
    }
  }

  lemma AnswersSnoc(history: seq<Record>, record: Record)
    ensures Answers(history + [record]) == Answers(history) + (if record.Answered? then [record.contribution] else [])
  {}

  lemma {:induction false} RebuiltAnswers(g: Engine, s: Session, history: seq<Record>)
    requires Lawful(g) && Rebuild(g, s, history).Some?
    ensures Rebuild(g, s, history).value.state.contributions == Answers(history)
  {
    if history != [] {
      RebuiltAnswers(g, s, history[..|history| - 1]);
    }
  }

  lemma HistoriesGrow(h: Hashing, s: Session, b: Rebuilt, record: Record)
    requires RebuildStep(EngineOf(h), s, b, record).Some?
    ensures b.state.topologyHistory <= RebuildStep(EngineOf(h), s, b, record).value.state.topologyHistory
    ensures b.state.contributions <= RebuildStep(EngineOf(h), s, b, record).value.state.contributions
  {
    hide ExchangeChecks, TopologyChecks, Validates, CycleOf, SemanticOf, ApplyOperation;
  }

  lemma {:induction false} HistoriesExtend(h: Hashing, s: Session, history: seq<Record>, i: nat)
    requires i <= |history| && Rebuild(EngineOf(h), s, history).Some?
    ensures Rebuild(EngineOf(h), s, history[..i]).Some?
    ensures Rebuild(EngineOf(h), s, history[..i]).value.state.topologyHistory <= Rebuild(EngineOf(h), s, history).value.state.topologyHistory
    ensures Rebuild(EngineOf(h), s, history[..i]).value.state.contributions <= Rebuild(EngineOf(h), s, history).value.state.contributions
  {
    hide RebuildStep;
    if i == |history| {
      assert history[..i] == history;
    } else {
      var n := |history| - 1;
      HistoriesExtend(h, s, history[..n], i);
      assert history[..n][..i] == history[..i];
      HistoriesGrow(h, s, Rebuild(EngineOf(h), s, history[..n]).value, history[n]);
    }
  }

  /** The topology in force when record i was added: after as many events as came before it. */
  function TopologyAt(st: State, history: seq<Record>, i: nat): Topology
    requires i <= |history| && |Events(history[..i])| < |st.topologyHistory|
  {
    st.topologyHistory[|Events(history[..i])|]
  }

  /** In every rebuilt session a contribution comes from the first peer on the roster that may follow
      the contributions before it, in the topology in force at that moment. In particular an enabled
      edge of that topology leads to it from the previous contributor. */
  lemma EveryTurnFollows(h: Hashing, s: Session, history: seq<Record>, i: nat)
    requires ValidSession(s) && Rebuild(EngineOf(h), s, history).Some? && i < |history| && history[i].Answered?
    ensures
      var st, cs := Rebuild(EngineOf(h), s, history).value.state, Answers(history[..i]);
      && |Events(history[..i])| < |st.topologyHistory|
      && ComesNext(s, TopologyAt(st, history, i), cs, history[i].contribution.peer)
      && (cs != [] ==> (cs[|cs| - 1].peer, history[i].contribution.peer) in TopologyAt(st, history, i).edges)
      && |cs| < |st.contributions| && st.contributions[..|cs|] == cs && st.contributions[|cs|] == history[i].contribution
  {
    hide Rebuild, RebuildStep, Lawful, ValidSession, Validates, ComesNext, Events, Answers;
    EngineIsLawful(h);
    HistoriesExtend(h, s, history, i);
    HistoriesExtend(h, s, history, i + 1);
    assert history[..i + 1] == history[..i] + [history[i]];
    RebuildSnoc(EngineOf(h), s, history[..i], history[i]);
    RebuiltAnswers(EngineOf(h), s, history[..i]);
    RebuiltAnswers(EngineOf(h), s, history[..i + 1]);
    AnswersSnoc(history[..i], history[i]);
    RebuildValidates(h, s, history[..i]);
    RebuiltTopologiesFollow(h, s, history[..i]);
    var b := Rebuild(EngineOf(h), s, history[..i]).value;
    LastTopology(h, s, b.state);
    AnsweredFollows(h, s, b, history[i].contribution, history[i].usage);
    NextHasEdge(s, b.state.topology, b.state.contributions, history[i].contribution.peer);
  }

  lemma LastTopology(h: Hashing, s: Session, st: State)
    requires Validates(h, st)
    ensures |st.topologyHistory| == |st.topologyEvents| + 1 && st.topology == st.topologyHistory[|st.topologyEvents|]
  {}

  lemma NextHasEdge(s: Session, t: Topology, cs: seq<Contribution>, p: Id)
    requires ComesNext(s, t, cs, p)
    ensures cs != [] ==> (cs[|cs| - 1].peer, p) in t.edges
  {}

  lemma AnsweredFollows(h: Hashing, s: Session, b: Rebuilt, c: Contribution, usage: Resources)
    requires ValidSession(s) && Validates(h, b.state) && b.state.session == s && RebuildStep(EngineOf(h), s, b, Answered(c, usage)).Some?
    ensures ComesNext(s, b.state.topology, b.state.contributions, c.peer)
  {
    hide ValidSession, Validates, Advance, ComesNext, Reached, Subset, Known, Spent, Amount, Ancestry;
    ContributionAccepted(h, b.state, b.pending.value, c, usage);
  }

  /** The termination handler records exactly the reason of the first limit reached, once. */
  lemma TerminationAccepted(h: Hashing, w: World, s: Session, history: seq<Record>, reason: Option<Reason>)
    requires ValidSession(s) && Rebuild(EngineOf(h), s, history).Some?
    ensures
      var b := Rebuild(EngineOf(h), s, history).value;
      DecideTermination(EngineOf(h), w, s.sessionId, b, reason).Accepted?
      <==> s.sessionId !in w.terminations && reason.Some? && FirstReached(h, b.state, reason.value)
  {
    hide ValidSession, Validates, Rebuild, TerminationOf, FirstReached;
    var b := Rebuild(EngineOf(h), s, history).value;
    RebuildValidates(h, s, history);
    ValidParts(h, b.state);
    if reason.Some? {
      TerminationExactly(h, b.state, reason.value);
    }
    TerminationDecided(h, w, s.sessionId, b, reason);
  }

  lemma TerminationDecided(h: Hashing, w: World, id: Id, b: Rebuilt, reason: Option<Reason>)
    ensures DecideTermination(EngineOf(h), w, id, b, reason).Accepted?
       <==> id !in w.terminations && reason.Some? && TerminationOf(h, b.state) == reason
  {
    hide TerminationOf;
  }

  // ---- what is observed after each transition ----

  /** The last observation of a state, spelled out. */
  ghost predicate Observes(h: Hashing, st: State)
  {
    var s, cs, t := st.session, st.contributions, st.topologyHistory;
    && t != [] && |st.cycles| == |st.observed| == |st.transitions| + 1 && |st.transitions| == |cs| + |st.topologyEvents|
    && st.cycles[|st.transitions|] == h.cycle(CycleKey(
         s.contentHash, h.topology(t[|t| - 1]), multiset(PeerIds(cs)), multiset(Kinds(cs)),
         if cs == [] then None else Some(cs[|cs| - 1].peer), Sum(st.usageHistory), Done(s, cs)))
    && st.observed[|st.transitions|] == h.semantic(SemanticKey(
         s.contentHash, h.topology(t[|t| - 1]), if |t| < 2 then None else Some(h.topology(t[|t| - 2])),
         |st.topologyEvents|, |Returns(h, t)|, multiset(PeerIds(cs)), multiset(Kinds(cs)),
         if cs == [] then None else Some(cs[|cs| - 1].peer), Sum(st.usageHistory), multiset(RequestIds(st.requests)),
         Depths(cs), multiset(st.cycles), Done(s, cs)))
  }

  lemma InitialObserves(h: Hashing, s: Session)
    requires ValidSession(s)
    ensures Observes(h, Initial(h, s))
  {
    ReturnsAreCounted(h, [InitialTopology(s)]);
  }

  lemma ExchangeObserves(h: Hashing, st: State, r: Request, c: Contribution, usage: Resources)
    requires LengthsValid(st) && |st.cycles| == |st.observed| == |st.transitions| + 1
    ensures Observes(h, AfterExchange(h, st, r, c, usage))
  {
    hide PeerIds, Kinds, Sum, Depths, RequestIds, Churn, IsCompleted, Done, Returns;
    CompletedIsDone(st.session, st.contributions + [c]);
    ReturnsAreCounted(h, st.topologyHistory);
  }

  lemma EventObserves(h: Hashing, st: State, e: TopologyEvent, after: Topology)
    requires LengthsValid(st) && |st.cycles| == |st.observed| == |st.transitions| + 1
    ensures Observes(h, AfterTopology(h, st, e, after))
  {
    hide PeerIds, Kinds, Sum, Depths, RequestIds, Churn, IsCompleted, Done, Returns;
    CompletedIsDone(st.session, st.contributions);
    ReturnsAreCounted(h, st.topologyHistory + [after]);
  }

  /** Every rebuilt state has observed itself: one cycle and one semantic digest for each transition and
      one for the start, the last ones over exactly what the histories say. */
  lemma {:induction false} RebuiltObserves(h: Hashing, s: Session, history: seq<Record>)
    requires ValidSession(s) && Rebuild(EngineOf(h), s, history).Some?
    ensures Observes(h, Rebuild(EngineOf(h), s, history).value.state)
  {
    hide ValidSession, RebuildStep, Observes, Validates;
    if history == [] {
      InitialObserves(h, s);
    } else {
      var front, last := history[..|history| - 1], history[|history| - 1];
      RebuiltObserves(h, s, front);
      RebuildValidates(h, s, front);
      StepObserves(h, s, Rebuild(EngineOf(h), s, front).value, last);
    }
  }

  lemma StepObserves(h: Hashing, s: Session, b: Rebuilt, record: Record)
    requires Validates(h, b.state) && Observes(h, b.state) && b.state.session == s && RebuildStep(EngineOf(h), s, b, record).Some?
    ensures Observes(h, RebuildStep(EngineOf(h), s, b, record).value.state)
  {
    hide Validates, ExchangeChecks, AfterExchange, AfterTopology, Observes;
    ObservedLengths(h, b.state);
    match record {
      case Asked(_) =>
      case Answered(c, usage) => ExchangeObserves(h, b.state, b.pending.value, c, usage);
      case Reshaped(e) => EventObserves(h, b.state, e, ApplyOperation(s, b.state.topology, e.operation).value);
    }
  }

  lemma ObservedLengths(h: Hashing, st: State)
    requires Validates(h, st) && Observes(h, st)
    ensures LengthsValid(st) && |st.cycles| == |st.observed| == |st.transitions| + 1
  {}

  // ---- the other handlers ----

  /** The session goes on, changes are left, and the event continues the history with an operation whose
      effect its hashes name. */
  ghost predicate MayReshape(h: Hashing, st: State, e: TopologyEvent)
  {
    && (forall reason :: !Reached(h, st, reason)) && |st.topologyEvents| < st.session.budget.maxTopologyChanges
    && e.sessionId == st.session.sessionId && e.sequence == |st.topologyEvents| + 1 && e.before == h.topology(st.topology)
    && exists after :: Effect(st.session, st.topology, e.operation, after) && e.after == h.topology(after)
  }

  lemma BuildsExactly(h: Hashing, st: State, e: TopologyEvent)
    requires ValidSession(st.session) && Validates(h, st)
    ensures ApplyTopology(h, st.session, st, e).Ok? <==> MayReshape(h, st, e)
  {
    hide ValidSession, Validates, Reached, Effect, ApplyTopology;
    if ApplyTopology(h, st.session, st, e).Ok? {
      TopologyAccepted(h, st, e, ApplyTopology(h, st.session, st, e).value.topology);
    }
    if MayReshape(h, st, e) {
      var after :| Effect(st.session, st.topology, e.operation, after) && e.after == h.topology(after);
      TopologyAccepted(h, st, e, after);
    }
  }

  /** The topology handler accepts exactly an event with a new id that may reshape the session. */
  lemma EventAccepted(h: Hashing, s: Session, history: seq<Record>, e: TopologyEvent)
    requires ValidSession(s) && Rebuild(EngineOf(h), s, history).Some?
    ensures
      var b := Rebuild(EngineOf(h), s, history).value;
      && b.state.session == s && b.state.topologyEvents == Events(history)
      && (DecideTopology(EngineOf(h), s, b, e).Accepted? <==>
            (forall i :: 0 <= i < |Events(history)| ==> Events(history)[i].eventId != e.eventId) && MayReshape(h, b.state, e))
  {
    hide ValidSession, Validates, Rebuild, Lawful, ApplyTopology, Events, Retains, MayReshape;
    var b := Rebuild(EngineOf(h), s, history).value;
    EngineIsLawful(h);
    RebuildRetains(EngineOf(h), s, history);
    RebuildValidates(h, s, history);
    RetainedEvents(s, history, b, e.eventId);
    EventDecided(h, s, b, e);
    BuildsExactly(h, b.state, e);
  }

  lemma RetainedEvents(s: Session, history: seq<Record>, b: Rebuilt, id: Id)
    requires Retains(s, history, b)
    ensures b.state.session == s && Events(history) == b.state.topologyEvents
    ensures id in b.eventIds <==> exists i :: 0 <= i < |Events(history)| && Events(history)[i].eventId == id
  {
    hide Paired, Exchanges, DistinctRequests, ContributionsDistinct, EventIdsDistinct, Events;
  }

  lemma EventDecided(h: Hashing, s: Session, b: Rebuilt, e: TopologyEvent)
    ensures DecideTopology(EngineOf(h), s, b, e).Accepted? <==> e.eventId !in b.eventIds && ApplyTopology(h, s, b.state, e).Ok?
  {
    hide TerminationOf, ApplyTopology;
  }

  /** The declared envelope: who takes part, over which edges, how much of everything. */
  predicate Envelope(s: Session)
  {
    var b, peers := s.budget, set p | p in s.roster;
    && |peers| == |s.roster| && s.initialActive <= peers && (forall e :: e in s.declaredEdges ==> {e.0, e.1} <= peers)
    && s.minContributions > 0 && (s.requiredKind.None? || s.requiredKind.value in s.allowedKinds)
    && 0 < b.maxHops <= 256 && 0 < b.maxContributions <= 256 && 0 <= b.maxTopologyChanges <= 64
    && b.maxPerPeer > 0 && b.maxParentDepth >= 0 && b.maxRepetitions > 0 && b.maxChurn > 0
    && b.maxShare > 0.0 && b.maxShare <= 1.0
    && (forall f :: 0.0 <= Amount(b.resources, f) <= 1000000000000.0)
  }

  lemma {:induction false} RosterDistinct(roster: seq<Id>)
    ensures |set p | p in roster| <= |roster|
    ensures |set p | p in roster| == |roster| <==> forall i, j :: 0 <= i < j < |roster| ==> roster[i] != roster[j]
  {
    if roster != [] {
      var n := |roster| - 1;
      RosterDistinct(roster[..n]);
      assert roster == roster[..n] + [roster[n]];
      assert (set p | p in roster) == (set p | p in roster[..n]) + {roster[n]};
      if roster[n] in roster[..n] {
        assert (set p | p in roster) == (set p | p in roster[..n]);
        var i :| 0 <= i < n && roster[..n][i] == roster[n];
        assert roster[i] == roster[n];
      } else {
        assert |set p | p in roster| == |set p | p in roster[..n]| + 1;
        assert forall i :: 0 <= i < n ==> roster[..n][i] == roster[i];
      }
    }
  }

  lemma AmountsBounded(r: Resources)
    ensures Within(ZERO, r) && Bounded(r) <==> forall f :: 0.0 <= Amount(r, f) <= 1000000000000.0
  {
    if forall f :: 0.0 <= Amount(r, f) <= 1000000000000.0 {
      assert 0.0 <= Amount(r, Cost) <= 1000000000000.0 && 0.0 <= Amount(r, Compute) <= 1000000000000.0;
      assert 0.0 <= Amount(r, Tokens) <= 1000000000000.0 && 0.0 <= Amount(r, Elapsed) <= 1000000000000.0;
      assert 0.0 <= Amount(r, ToolCalls) <= 1000000000000.0 && 0.0 <= Amount(r, Interventions) <= 1000000000000.0;
    }
  }

  lemma EnvelopeExactly(s: Session)
    ensures ValidSession(s) <==> Envelope(s)
  {
    RosterDistinct(s.roster);
    AmountsBounded(s.budget.resources);
    hide Within, Bounded, Amount;
  }

  /** The session handler accepts exactly a new session under the active policy, of a recorded cohort, with a
      valid envelope. */
  lemma SessionAccepted(g: Engine, authority: AuthorityCheck, w: World, s: Session, policy: Digest)
    ensures Decide(g, authority, w, Entry(RecordSession(s), policy)).Accepted? <==>
      && authority(Entry(RecordSession(s), policy)) && s.governingPolicy == policy && s.sessionId !in w.sessions
      && s.cohort.planId in w.cohorts && w.cohorts[s.cohort.planId] == s.cohort && Envelope(s)
  {
    hide ValidSession, Envelope;
    EnvelopeExactly(s);
  }
}
