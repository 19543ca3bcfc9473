/** The incremental engine agrees with the batch validator: a state the engine builds from a
    valid state always passes, with request ids as the one exception. */
module CollaborationValidation {
  import opened Common
  import opened CollaborationEngine

  // ---- the journal replay over a growing history ----

  lemma {:induction false} LoopAgrees<X(!new)>(step: (X, nat) -> Result<X>, step': (X, nat) -> Result<X>, start: Result<X>, n: nat)
    requires forall x, k :: 1 <= k <= n && step(x, k).Ok? ==> step'(x, k) == step(x, k)
    requires Loop(step, start, n).Ok?
    ensures Loop(step', start, n) == Loop(step, start, n)
  {
    if n > 0 {
      LoopAgrees(step, step', start, n - 1);
    }
  }

  ghost predicate Grows(st: State, st': State)
  {
    && st.session == st'.session
    && st.transitions <= st'.transitions && st.topologyHistory <= st'.topologyHistory
    && st.topologyEvents <= st'.topologyEvents && st.requests <= st'.requests
    && st.contributions <= st'.contributions && st.usageHistory <= st'.usageHistory
    && st.observed <= st'.observed && st.cycles <= st'.cycles
  }

  lemma TransitionUnchanged(h: Hashing, st: State, st': State, x: Totals, t: Transition)
    requires Grows(st, st') && TransitionStep(h, st, x, t).Ok?
    ensures TransitionStep(h, st', x, t) == TransitionStep(h, st, x, t)
  {
    hide FirstEligible, DepthBelow, Within, Plus;
  }

  lemma ObserveUnchanged(h: Hashing, st: State, st': State, x: Totals, position: nat)
    requires Grows(st, st') && Observe(h, st, x, position).Ok?
    ensures Observe(h, st', x, position) == Observe(h, st, x, position)
  {
    hide CycleFrom, SemanticFrom;
  }

  lemma StepUnchanged(h: Hashing, st: State, st': State, x: Totals, position: nat)
    requires Grows(st, st') && ReplayStep(h, st, x, position).Ok?
    ensures ReplayStep(h, st', x, position) == ReplayStep(h, st, x, position)
  {
    hide ReasonFrom, TransitionStep, Observe;
    var t := st.transitions[position - 1];
    TransitionUnchanged(h, st, st', x, t);
    ObserveUnchanged(h, st, st', TransitionStep(h, st, x, t).value, position);
  }

  lemma PrefixUnchanged(h: Hashing, st: State, st': State, n: nat)
    requires Grows(st, st') && ReplayTo(h, st, n).Ok? && ReplayStart(h, st).Ok?
    ensures ReplayTo(h, st', n) == ReplayTo(h, st, n)
  {
    assert ReplayStart(h, st') == ReplayStart(h, st) by {
      assert st'.topologyHistory[0] == st.topologyHistory[0];
      assert st'.observed[0] == st.observed[0] && st'.cycles[0] == st.cycles[0];
    }
    forall x: Totals, k: nat | StepOf(h, st)(x, k).Ok?
      ensures StepOf(h, st')(x, k) == StepOf(h, st)(x, k)
    {
      StepUnchanged(h, st, st', x, k);
    }
    LoopAgrees(StepOf(h, st), StepOf(h, st'), ReplayStart(h, st), n);
  }

  // ---- running totals equal the totals recomputed from scratch ----

  function Hashes(h: Hashing, history: seq<Topology>): seq<Digest>
  {
    seq(|history|, i requires 0 <= i < |history| => h.topology(history[i]))
  }

  /** The exchange totals are those of the first exchanges. */
  ghost predicate TracksExchanges(st: State, x: Totals)
  {
    && x.exchanges <= |st.requests| && x.exchanges <= |st.contributions| && x.exchanges <= |st.usageHistory|
    && var cs := st.contributions[..x.exchanges];
    && x.lastPeer == LastPeer(cs)
    && x.peers == multiset(PeerIds(cs)) && x.kinds == multiset(Kinds(cs))
    && x.usage == Sum(st.usageHistory[..x.exchanges])
    && x.requestIds == (set id | id in RequestIds(st.requests[..x.exchanges]))
    && x.depths == Depths(cs)
    && x.completed == IsCompleted(st.session, cs)
  }

  /** The topology totals are those of the first events. */
  ghost predicate TracksTopology(h: Hashing, st: State, x: Totals)
  {
    && x.events < |st.topologyHistory| && x.events <= |st.topologyEvents|
    && var history := st.topologyHistory[..x.events + 1];
    && x.topology == st.topologyHistory[x.events]
    && x.topologyHashes == Hashes(h, history)
    && x.churn == Churn(h, history) && x.priorTopology == PriorHash(h, history)
  }

  ghost predicate TracksCycles(st: State, x: Totals, n: nat)
  {
    x.events + x.exchanges == n && n < |st.cycles| && x.cycles == multiset(st.cycles[..n + 1])
  }

  ghost predicate Tracks(h: Hashing, st: State, x: Totals, n: nat)
  {
    TracksExchanges(st, x) && TracksTopology(h, st, x) && TracksCycles(st, x, n)
  }

  lemma PeersSnoc(cs: seq<Contribution>, c: Contribution)
    ensures multiset(PeerIds(cs + [c])) == multiset(PeerIds(cs)) + multiset{c.peer}
    ensures multiset(Kinds(cs + [c])) == multiset(Kinds(cs)) + multiset{c.kind}
    ensures LastPeer(cs + [c]) == Some(c.peer)
    ensures Depths(cs + [c]) == Depths(cs)[c.contributionId := DepthBelow(Depths(cs), c.parents)]
  {
    assert PeerIds(cs + [c]) == PeerIds(cs) + [c.peer];
    assert Kinds(cs + [c]) == Kinds(cs) + [c.kind];
    assert (cs + [c])[..|cs + [c]| - 1] == cs;
  }

  lemma SumSnoc(us: seq<Resources>, u: Resources)
    ensures Sum(us + [u]) == Plus(Sum(us), u)
  {}

  lemma CompletedSnoc(s: Session, cs: seq<Contribution>, c: Contribution)
    ensures IsCompleted(s, cs + [c]) <==>
      |cs| + 1 >= s.minContributions
      && (s.requiredKind.Some? ==> s.requiredKind.value in multiset(Kinds(cs)) + multiset{c.kind})
  {
    PeersSnoc(cs, c);
    if s.requiredKind.Some? {
      assert s.requiredKind.value in Kinds(cs + [c]) <==> s.requiredKind.value in multiset(Kinds(cs + [c]));
    }
  }

  lemma ChurnSnoc(h: Hashing, history: seq<Topology>, t: Topology)
    requires history != []
    ensures
      var hashes := Hashes(h, history);
      var n := |hashes|;
      && Hashes(h, history + [t]) == hashes + [h.topology(t)]
      && Churn(h, history + [t]) == Churn(h, history) + (if n >= 2 && h.topology(t) == hashes[n - 2] then 1 else 0)
      && PriorHash(h, history + [t]) == Some(h.topology(history[|history| - 1]))
  {}

  lemma RequestIdsSnoc(rs: seq<Request>, r: Request)
    ensures RequestIds(rs + [r]) == RequestIds(rs) + [r.requestId]
    ensures (set id | id in RequestIds(rs + [r])) == (set id | id in RequestIds(rs)) + {r.requestId}
  {}

  lemma CyclesTrackNothingElse(h: Hashing, st: State, x: Totals, y: Totals)
    requires y == x.(cycles := y.cycles)
    ensures TracksExchanges(st, x) ==> TracksExchanges(st, y)
    ensures TracksTopology(h, st, x) ==> TracksTopology(h, st, y)
  {}

  lemma OneMoreCycle(cycles: seq<Digest>, n: nat)
    requires n < |cycles|
    ensures multiset(cycles[..n + 1]) == multiset(cycles[..n]) + multiset{cycles[n]}
  {
    assert cycles[..n + 1] == cycles[..n] + [cycles[n]];
  }

  lemma ObserveTracks(h: Hashing, st: State, x: Totals, n: nat)
    requires TracksExchanges(st, x) && TracksTopology(h, st, x)
    requires x.events + x.exchanges == n && n <= |st.cycles| && x.cycles == multiset(st.cycles[..n])
    requires Observe(h, st, x, n).Ok?
    ensures Tracks(h, st, Observe(h, st, x, n).value, n)
  {
    hide TracksExchanges, TracksTopology, SemanticFrom, CycleFrom;
    CyclesTrackNothingElse(h, st, x, Observe(h, st, x, n).value);
    OneMoreCycle(st.cycles, n);
  }

  lemma StartTracks(h: Hashing, st: State)
    requires ReplayStart(h, st).Ok? && 1 <= st.session.minContributions
    ensures Tracks(h, st, ReplayStart(h, st).value, 0)
  {}

  lemma EventTracks(h: Hashing, st: State, x: Totals, eventId: Id)
    requires TracksTopology(h, st, x) && EventStep(h, st, x, eventId).Ok?
    ensures TracksTopology(h, st, EventStep(h, st, x, eventId).value)
  {
    var history := st.topologyHistory[..x.events + 1];
    assert st.topologyHistory[..x.events + 2] == history + [st.topologyHistory[x.events + 1]];
    ChurnSnoc(h, history, st.topologyHistory[x.events + 1]);
  }

  lemma ExchangeTracks(st: State, x: Totals, requestId: Id, contributionId: Id)
    requires TracksExchanges(st, x) && ExchangeStep(st, x, requestId, contributionId).Ok?
    ensures TracksExchanges(st, ExchangeStep(st, x, requestId, contributionId).value)
  {
    var i := x.exchanges;
    assert st.contributions[..i + 1] == st.contributions[..i] + [st.contributions[i]];
    assert st.requests[..i + 1] == st.requests[..i] + [st.requests[i]];
    assert st.usageHistory[..i + 1] == st.usageHistory[..i] + [st.usageHistory[i]];
    PeersSnoc(st.contributions[..i], st.contributions[i]);
    CompletedSnoc(st.session, st.contributions[..i], st.contributions[i]);
    SumSnoc(st.usageHistory[..i], st.usageHistory[i]);
    RequestIdsSnoc(st.requests[..i], st.requests[i]);
  }

  lemma TransitionTracks(h: Hashing, st: State, x: Totals, n: nat, t: Transition)
    requires Tracks(h, st, x, n) && TransitionStep(h, st, x, t).Ok?
    ensures
      var y := TransitionStep(h, st, x, t).value;
      && TracksExchanges(st, y) && TracksTopology(h, st, y)
      && y.events + y.exchanges == n + 1 && y.cycles == x.cycles
  {
    hide DepthBelow, Depths, Kinds, PeerIds, Sum, RequestIds, IsCompleted, Churn, PriorHash, ExchangeFits, FirstEligible;
    match t {
      case TopologyChange(_, eventId) => EventTracks(h, st, x, eventId);
      case PeerExchange(_, requestId, contributionId) => ExchangeTracks(st, x, requestId, contributionId);
    }
  }

  lemma StepTracks(h: Hashing, st: State, x: Totals, n: nat)
    requires Tracks(h, st, x, n) && ReplayStep(h, st, x, n + 1).Ok?
    ensures Tracks(h, st, ReplayStep(h, st, x, n + 1).value, n + 1)
  {
    var t := st.transitions[n];
    TransitionTracks(h, st, x, n, t);
    ObserveTracks(h, st, TransitionStep(h, st, x, t).value, n + 1);
  }

  lemma {:induction false} LoopKeeps<X(!new)>(step: (X, nat) -> Result<X>, start: Result<X>, n: nat, keeps: (X, nat) -> bool)
    requires Loop(step, start, n).Ok?
    requires start.Ok? ==> keeps(start.value, 0)
    requires forall x, k: nat :: k < n && keeps(x, k) && step(x, k + 1).Ok? ==> keeps(step(x, k + 1).value, k + 1)
    ensures keeps(Loop(step, start, n).value, n)
  {
    if n > 0 {
      LoopKeeps(step, start, n - 1, keeps);
    }
  }

  lemma ReplayTracks(h: Hashing, st: State, n: nat)
    requires 1 <= st.session.minContributions && ReplayTo(h, st, n).Ok?
    ensures Tracks(h, st, ReplayTo(h, st, n).value, n)
    ensures ReplayStart(h, st).Ok?
  {
    hide Tracks, ReplayStep, ReplayStart;
    LoopStarts(StepOf(h, st), ReplayStart(h, st), n);
    StartTracks(h, st);
    var keeps := (x: Totals, k: nat) => Tracks(h, st, x, k);
    forall x: Totals, k: nat | keeps(x, k) && StepOf(h, st)(x, k + 1).Ok?
      ensures keeps(StepOf(h, st)(x, k + 1).value, k + 1)
    {
      StepTracks(h, st, x, k);
    }
    LoopKeeps(StepOf(h, st), ReplayStart(h, st), n, keeps);
  }

  lemma {:induction false} LoopStarts<X>(step: (X, nat) -> Result<X>, start: Result<X>, n: nat)
    requires Loop(step, start, n).Ok?
    ensures start.Ok?
  {
    if n > 0 {
      LoopStarts(step, start, n - 1);
    }
  }

  // ---- valid states ----

  ghost predicate DistinctRequests(rs: seq<Request>)
  {
    forall i, j :: 0 <= i < j < |rs| ==> rs[i].requestId != rs[j].requestId
  }

  lemma {:induction false} DistinctIds(rs: seq<Request>)
    requires DistinctRequests(rs)
    ensures multiset(RequestIds(rs)) == multiset(set id | id in RequestIds(rs))
  {
    if rs != [] {
      var earlier, last := rs[..|rs| - 1], rs[|rs| - 1];
      DistinctIds(earlier);
      assert rs == earlier + [last];
      RequestIdsSnoc(earlier, last);
      assert last.requestId !in RequestIds(earlier);
    }
  }

  lemma ExchangesDistinct(st: State)
    requires |st.requests| == |st.contributions| == |st.usageHistory| && ExchangesValid(st)
    ensures DistinctRequests(st.requests)
  {
    forall i, j | 0 <= i < j < |st.requests|
      ensures st.requests[i].requestId != st.requests[j].requestId
    {
      assert ExchangeBinds(st.session, j, st.requests[..j], st.contributions[..j], st.usageHistory[..j],
                           st.requests[j], st.contributions[j], st.usageHistory[j]);
      assert RequestIds(st.requests[..j])[i] == st.requests[i].requestId;
    }
  }

  /** Totals that have consumed everything. */
  ghost predicate Final(h: Hashing, st: State, x: Totals)
  {
    && x.events == |st.topologyEvents| && |st.topologyHistory| == x.events + 1
    && x.exchanges == |st.requests| == |st.contributions| == |st.usageHistory|
    && x.topology == st.topologyHistory[x.events]
    && x.lastPeer == LastPeer(st.contributions)
    && x.peers == multiset(PeerIds(st.contributions)) && x.kinds == multiset(Kinds(st.contributions))
    && x.churn == Churn(h, st.topologyHistory) && x.priorTopology == PriorHash(h, st.topologyHistory)
    && x.usage == Sum(st.usageHistory)
    && multiset(x.requestIds) == multiset(RequestIds(st.requests))
    && x.depths == Depths(st.contributions) && x.completed == IsCompleted(st.session, st.contributions)
  }

  lemma TracksFinal(h: Hashing, st: State, x: Totals)
    requires TracksExchanges(st, x) && TracksTopology(h, st, x)
    requires x.events == |st.topologyEvents| && |st.topologyHistory| == x.events + 1
    requires x.exchanges == |st.requests| == |st.contributions| == |st.usageHistory|
    requires DistinctRequests(st.requests)
    ensures Final(h, st, x)
  {
    assert st.contributions[..|st.contributions|] == st.contributions;
    assert st.topologyHistory[..|st.topologyHistory|] == st.topologyHistory;
    assert st.usageHistory[..|st.usageHistory|] == st.usageHistory;
    assert st.requests[..|st.requests|] == st.requests;
    DistinctIds(st.requests);
  }

  /** The last observation is the one the engine computes from the whole histories. */
  ghost predicate EngineObserves(h: Hashing, st: State)
  {
    && st.topologyHistory != [] && st.cycles != [] && st.observed != []
    && st.cycles[|st.cycles| - 1] == CycleOf(h, st.session, st.topologyHistory[|st.topologyHistory| - 1], st.contributions,
                                             st.usageHistory, IsCompleted(st.session, st.contributions))
    && st.observed[|st.observed| - 1] == SemanticOf(h, st.session, st.topologyHistory, |st.topologyEvents|, st.contributions,
                                                    st.usageHistory, st.requests, st.cycles, IsCompleted(st.session, st.contributions))
  }

  lemma FinalObserves(h: Hashing, st: State, x: Totals, n: nat)
    requires Final(h, st, x) && EngineObserves(h, st)
    requires |st.cycles| == n + 1 && |st.observed| == n + 1
    requires x.cycles == multiset(st.cycles[..n])
    ensures Observe(h, st, x, n).Ok?
  {
    assert st.cycles == st.cycles[..n] + [st.cycles[n]];
    assert CycleFrom(h, st.session, x) == st.cycles[n];
  }

  /** The journal may go on from these totals. */
  predicate Continues(s: Session, x: Totals)
  {
    ReasonFrom(s, x.topology, x.events, x.exchanges, x.peers, x.lastPeer, x.cycles, x.churn, x.completed).None?
  }

  lemma StepIs(h: Hashing, st: State, x: Totals, n: nat)
    requires n < |st.transitions| && st.transitions[n].position == n + 1 && Continues(st.session, x)
    requires TransitionStep(h, st, x, st.transitions[n]).Ok?
    ensures ReplayStep(h, st, x, n + 1) == Observe(h, st, TransitionStep(h, st, x, st.transitions[n]).value, n + 1)
  {}

  lemma LoopNext<X>(step: (X, nat) -> Result<X>, start: Result<X>, n: nat, x: X)
    requires Loop(step, start, n) == Ok(x)
    ensures Loop(step, start, n + 1) == step(x, n + 1)
  {}

  lemma ReplayNext(h: Hashing, st: State, x: Totals, n: nat, next: Result<Totals>)
    requires ReplayTo(h, st, n) == Ok(x) && ReplayStep(h, st, x, n + 1) == next
    ensures ReplayTo(h, st, n + 1) == next
  {
    LoopNext(StepOf(h, st), ReplayStart(h, st), n, x);
  }

  lemma ObservePreserves(h: Hashing, st: State, x: Totals, n: nat)
    requires Observe(h, st, x, n).Ok?
    ensures
      var y := Observe(h, st, x, n).value;
      y.events == x.events && y.exchanges == x.exchanges && y.topology == x.topology
  {}

  /** The totals reach the end of every history after this transition. */
  ghost predicate Completes(h: Hashing, st: State, x: Totals, n: nat)
  {
    && |st.transitions| == n + 1 && |st.observed| == |st.cycles| == n + 2
    && st.transitions[n].position == n + 1
    && Continues(st.session, x)
    && var moved := TransitionStep(h, st, x, st.transitions[n]);
    && moved.Ok? && moved.value.events == |st.topologyEvents| && moved.value.exchanges == |st.requests|
    && |st.topologyHistory| == |st.topologyEvents| + 1 && st.topology == st.topologyHistory[|st.topologyEvents|]
    && |st.requests| == |st.contributions| == |st.usageHistory|
  }

  lemma LastObserves(h: Hashing, st: State, x: Totals, n: nat, y: Totals)
    requires |st.transitions| == n + 1 && |st.observed| == |st.cycles| == n + 2
    requires Tracks(h, st, x, n) && TransitionStep(h, st, x, st.transitions[n]) == Ok(y)
    requires y.events == |st.topologyEvents| && |st.topologyHistory| == y.events + 1
    requires y.exchanges == |st.requests| == |st.contributions| == |st.usageHistory|
    requires DistinctRequests(st.requests) && EngineObserves(h, st)
    ensures Observe(h, st, y, n + 1).Ok?
    ensures y.topology == st.topologyHistory[y.events]
  {
    hide TransitionStep, Observe, EngineObserves, DistinctRequests, TracksExchanges, Final;
    TransitionTracks(h, st, x, n, st.transitions[n]);
    TracksFinal(h, st, y);
    FinalObserves(h, st, y, n + 1);
  }

  /** One more transition, consistently recorded, keeps the journal authentic. */
  lemma JournalExtends(h: Hashing, st: State, st': State, x: Totals)
    requires 1 <= st.session.minContributions && Grows(st, st')
    requires ReplayTo(h, st, |st.transitions|) == Ok(x)
    requires Completes(h, st', x, |st.transitions|)
    requires DistinctRequests(st'.requests) && EngineObserves(h, st')
    ensures ReplayAuthentic(h, st')
  {
    var n := |st.transitions|;
    var y := TransitionStep(h, st', x, st'.transitions[n]).value;
    ReplayTracks(h, st, n);
    PrefixUnchanged(h, st, st', n);
    ReplayTracks(h, st', n);
    LastObserves(h, st', x, n, y);
    StepIs(h, st', x, n);
    ObservePreserves(h, st', y, n + 1);
    ReplayNext(h, st', x, n, Observe(h, st', y, n + 1));
  }

  lemma FinalReason(h: Hashing, st: State, x: Totals)
    requires Final(h, st, x) && x.cycles == multiset(st.cycles) && st.topology == st.topologyHistory[x.events]
    requires st.completed == IsCompleted(st.session, st.contributions)
    ensures Continues(st.session, x) <==> TerminationOf(h, st).None?
  {}

  lemma TrackedTotals(h: Hashing, st: State, x: Totals, n: nat)
    requires LengthsValid(st) && DistinctRequests(st.requests)
    requires Tracks(h, st, x, n) && |st.cycles| == n + 1
    requires x.events == |st.topologyEvents| && x.exchanges == |st.requests|
    ensures Final(h, st, x) && x.cycles == multiset(st.cycles)
    ensures Continues(st.session, x) <==> TerminationOf(h, st).None?
  {
    TracksFinal(h, st, x);
    assert st.cycles[..n + 1] == st.cycles;
    FinalReason(h, st, x);
  }

  /** In a valid state the replay ends in the totals the engine works from. */
  lemma ValidTotals(h: Hashing, st: State) returns (x: Totals)
    requires 1 <= st.session.minContributions
    requires LengthsValid(st) && ExchangesValid(st) && ReplayAuthentic(h, st)
    ensures ReplayTo(h, st, |st.transitions|) == Ok(x)
    ensures Final(h, st, x) && x.cycles == multiset(st.cycles)
    ensures Continues(st.session, x) <==> TerminationOf(h, st).None?
  {
    x := ReplayTo(h, st, |st.transitions|).value;
    ReplayTracks(h, st, |st.transitions|);
    ExchangesDistinct(st);
    TrackedTotals(h, st, x, |st.transitions|);
  }

  lemma InitialValidates(h: Hashing, s: Session)
    requires ValidSession(s)
    ensures Validates(h, Initial(h, s))
  {
    var st := Initial(h, s);
    assert multiset(st.cycles) == multiset{} + multiset{st.cycles[0]};
    var nothing: set<Id> := {};
    assert multiset(RequestIds([])) == multiset(nothing);
    assert PeerIds([]) == [] && Kinds([]) == [];
    assert ReplayTo(h, st, 0) == ReplayStart(h, st);
    assert ReplayStart(h, st).Ok?;
  }

  lemma NewRequestDistinct(rs: seq<Request>, r: Request)
    requires DistinctRequests(rs) && r.requestId !in RequestIds(rs)
    ensures DistinctRequests(rs + [r])
  {
    forall i, j | 0 <= i < j < |rs + [r]|
      ensures (rs + [r])[i].requestId != (rs + [r])[j].requestId
    {
      if j == |rs| {
        assert RequestIds(rs)[i] == rs[i].requestId;
      }
    }
  }

  lemma ExchangeFitsNext(h: Hashing, st: State, x: Totals, r: Request, c: Contribution, usage: Resources)
    requires Final(h, st, x) && st.topology == st.topologyHistory[x.events]
    requires ExchangeChecks(h, st.session, st, r, c, usage)
    ensures ExchangeFits(AfterExchange(h, st, r, c, usage), x, r.requestId, c.contributionId)
  {
    SumSnoc(st.usageHistory, usage);
  }

  lemma ExchangeCompletes(h: Hashing, st: State, x: Totals, r: Request, c: Contribution, usage: Resources)
    requires LengthsValid(st) && Final(h, st, x) && Continues(st.session, x)
    requires |st.observed| == |st.cycles| == |st.transitions| + 1
    requires ExchangeChecks(h, st.session, st, r, c, usage)
    ensures Completes(h, AfterExchange(h, st, r, c, usage), x, |st.transitions|)
  {
    ExchangeFitsNext(h, st, x, r, c, usage);
    assert AfterExchange(h, st, r, c, usage).transitions[|st.transitions|]
        == PeerExchange(|st.transitions| + 1, r.requestId, c.contributionId);
  }

  lemma ExchangeReplays(h: Hashing, st: State, r: Request, c: Contribution, usage: Resources)
    requires 1 <= st.session.minContributions
    requires LengthsValid(st) && ExchangesValid(st) && ReplayAuthentic(h, st)
    requires ExchangeChecks(h, st.session, st, r, c, usage)
    requires r.requestId !in RequestIds(st.requests)
    ensures ReplayAuthentic(h, AfterExchange(h, st, r, c, usage))
  {
    var x := ValidTotals(h, st);
    ExchangeCompletes(h, st, x, r, c, usage);
    ExchangesDistinct(st);
    NewRequestDistinct(st.requests, r);
    JournalExtends(h, st, AfterExchange(h, st, r, c, usage), x);
  }

  lemma ExchangePeers(limit: int, cs: seq<Contribution>, c: Contribution)
    requires PeersWithinLimit(limit, multiset(PeerIds(cs))) && multiset(PeerIds(cs))[c.peer] < limit
    ensures PeersWithinLimit(limit, multiset(PeerIds(cs + [c])))
  {
    PeersSnoc(cs, c);
    forall p | p in multiset(PeerIds(cs + [c]))
      ensures multiset(PeerIds(cs + [c]))[p] <= limit
    {
      if p != c.peer {
        assert p in multiset(PeerIds(cs));
      }
    }
  }

  lemma UnterminatedHasRoom(h: Hashing, st: State)
    requires TerminationOf(h, st).None?
    ensures |st.contributions| < st.session.budget.maxHops && |st.contributions| < st.session.budget.maxContributions
  {}

  lemma ExchangeShape(h: Hashing, st: State, r: Request, c: Contribution, usage: Resources)
    requires ValidSession(st.session) && ShapeValid(st) && ExchangeChecks(h, st.session, st, r, c, usage)
    ensures ShapeValid(AfterExchange(h, st, r, c, usage))
  {
    UnterminatedHasRoom(h, st);
    RecipientEligible(h, st, r.recipient);
    ExchangePeers(st.session.budget.maxPerPeer, st.contributions, c);
    assert LengthsValid(AfterExchange(h, st, r, c, usage));
  }

  lemma RecipientEligible(h: Hashing, st: State, p: Id)
    requires NextPeer(h, st) == Some(p)
    ensures p in st.session.roster
    ensures multiset(PeerIds(st.contributions))[p] < st.session.budget.maxPerPeer
  {
    var counts, last := multiset(PeerIds(st.contributions)), LastPeer(st.contributions);
    var keep := (q: Id) => q in st.topology.active && counts[q] < st.session.budget.maxPerPeer
                           && (last.Some? ==> (last.value, q) in st.topology.edges);
    FilterMembers(keep, st.session.roster);
    assert EligiblePeers(st.session, st.topology, counts, last) == Filter(keep, st.session.roster);
    assert p in EligiblePeers(st.session, st.topology, counts, last);
  }

  lemma SenderOnRoster(st: State)
    requires LengthsValid(st) && ExchangesValid(st)
    ensures LastPeer(st.contributions).Some? ==> LastPeer(st.contributions).value in st.session.roster
  {}

  lemma NewExchangeBinds(h: Hashing, st: State, r: Request, c: Contribution, usage: Resources)
    requires LengthsValid(st) && ExchangesValid(st) && ExchangeChecks(h, st.session, st, r, c, usage)
    ensures ExchangeBinds(st.session, |st.requests|, st.requests, st.contributions, st.usageHistory, r, c, usage)
       <==> r.requestId !in RequestIds(st.requests)
  {
    SumSnoc(st.usageHistory, usage);
    RecipientEligible(h, st, r.recipient);
    SenderOnRoster(st);
  }

  lemma ExchangesExtend(st: State, st': State, r: Request, c: Contribution, usage: Resources)
    requires LengthsValid(st) && ExchangesValid(st) && st'.session == st.session
    requires st'.requests == st.requests + [r] && st'.contributions == st.contributions + [c]
    requires st'.usageHistory == st.usageHistory + [usage]
    ensures ExchangesValid(st') <==> ExchangeBinds(st.session, |st.requests|, st.requests, st.contributions, st.usageHistory, r, c, usage)
  {
    var n := |st.requests|;
    assert st'.requests[..n] == st.requests && st'.contributions[..n] == st.contributions && st'.usageHistory[..n] == st.usageHistory;
    assert st'.requests[n] == r && st'.contributions[n] == c && st'.usageHistory[n] == usage;
    forall i | 0 <= i < n
      ensures ExchangeBinds(st.session, i, st'.requests[..i], st'.contributions[..i], st'.usageHistory[..i],
                            st'.requests[i], st'.contributions[i], st'.usageHistory[i])
    {
      assert st'.requests[..i] == st.requests[..i] && st'.contributions[..i] == st.contributions[..i] && st'.usageHistory[..i] == st.usageHistory[..i];
    }
  }

  lemma LengthsExtend(h: Hashing, st: State, r: Request, c: Contribution, usage: Resources)
    requires LengthsValid(st)
    ensures LengthsValid(AfterExchange(h, st, r, c, usage))
  {
    hide IsCompleted, CycleOf, SemanticOf, Sum;
  }

  lemma ExchangeBindings(h: Hashing, st: State, r: Request, c: Contribution, usage: Resources)
    requires LengthsValid(st) && ExchangesValid(st) && ExchangeChecks(h, st.session, st, r, c, usage)
    ensures
      var st' := AfterExchange(h, st, r, c, usage);
      LengthsValid(st') && (ExchangesValid(st') <==> r.requestId !in RequestIds(st.requests))
  {
    hide ExchangesValid, ExchangeChecks, ExchangeBinds, RequestIds;
    NewExchangeBinds(h, st, r, c, usage);
    ExchangesExtend(st, AfterExchange(h, st, r, c, usage), r, c, usage);
    LengthsExtend(h, st, r, c, usage);
  }

  lemma ShapeHasLengths(st: State)
    requires ShapeValid(st)
    ensures LengthsValid(st)
  {}

  /** From a valid state, an exchange that passes the engine's own checks is built exactly when
      its request id is new: no other validator check can ever fire. */
  lemma AdvanceExactly(h: Hashing, st: State, r: Request, c: Contribution, usage: Resources)
    requires ValidSession(st.session) && Validates(h, st)
    ensures Advance(h, st.session, st, r, c, usage).Ok?
       <==> ExchangeChecks(h, st.session, st, r, c, usage) && r.requestId !in RequestIds(st.requests)
    ensures Advance(h, st.session, st, r, c, usage).Ok? ==> Validates(h, Advance(h, st.session, st, r, c, usage).value)
  {
    hide ExchangesValid, ReplayAuthentic, ExchangeChecks, RequestIds, LengthsValid;
    if ExchangeChecks(h, st.session, st, r, c, usage) {
      ShapeHasLengths(st);
      ExchangeShape(h, st, r, c, usage);
      ExchangeBindings(h, st, r, c, usage);
      if r.requestId !in RequestIds(st.requests) {
        ExchangeReplays(h, st, r, c, usage);
      }
    }
  }

  lemma TopologyCompletes(h: Hashing, st: State, x: Totals, e: TopologyEvent, after: Topology)
    requires LengthsValid(st) && Final(h, st, x) && Continues(st.session, x)
    requires |st.observed| == |st.cycles| == |st.transitions| + 1
    ensures Completes(h, AfterTopology(h, st, e, after), x, |st.transitions|)
  {
    var st' := AfterTopology(h, st, e, after);
    assert st'.transitions[|st.transitions|] == TopologyChange(|st.transitions| + 1, e.eventId);
    assert st'.topologyEvents[x.events] == e && st'.topologyHistory[x.events + 1] == after;
  }

  lemma TopologyReplays(h: Hashing, st: State, e: TopologyEvent, after: Topology)
    requires 1 <= st.session.minContributions
    requires LengthsValid(st) && ExchangesValid(st) && ReplayAuthentic(h, st)
    requires TerminationOf(h, st).None?
    ensures ReplayAuthentic(h, AfterTopology(h, st, e, after))
  {
    var x := ValidTotals(h, st);
    TopologyCompletes(h, st, x, e, after);
    ExchangesDistinct(st);
    JournalExtends(h, st, AfterTopology(h, st, e, after), x);
  }

  lemma TopologyBindings(h: Hashing, st: State, e: TopologyEvent)
    requires ValidSession(st.session) && Validates(h, st) && TopologyChecks(h, st.session, st, e)
    ensures
      var st' := AfterTopology(h, st, e, ApplyOperation(st.session, st.topology, e.operation).value);
      ShapeValid(st') && EventsValid(h, st') && ExchangesValid(st')
  {
    var st' := AfterTopology(h, st, e, ApplyOperation(st.session, st.topology, e.operation).value);
    forall i | 0 <= i < |st'.topologyEvents|
      ensures EventBinds(h, st.session, i, st'.topologyEvents[i], st'.topologyHistory[i], st'.topologyHistory[i + 1])
    {
      if i < |st.topologyEvents| {
        assert EventBinds(h, st.session, i, st.topologyEvents[i], st.topologyHistory[i], st.topologyHistory[i + 1]);
      }
    }
  }

  /** From a valid state, a topology event that passes the engine's checks is always built. */
  lemma ApplyTopologyExactly(h: Hashing, st: State, e: TopologyEvent)
    requires ValidSession(st.session) && Validates(h, st)
    ensures ApplyTopology(h, st.session, st, e).Ok? <==> TopologyChecks(h, st.session, st, e)
    ensures ApplyTopology(h, st.session, st, e).Ok? ==> Validates(h, ApplyTopology(h, st.session, st, e).value)
  {
    hide ReplayAuthentic, ExchangesValid;
    if TopologyChecks(h, st.session, st, e) {
      TopologyReplays(h, st, e, ApplyOperation(st.session, st.topology, e.operation).value);
      TopologyBindings(h, st, e);
    }
  }
}
