/** The collaboration state machine: the incremental transition functions, and the batch
    validator that every state must pass when it is built. */
module CollaborationEngine {
  import opened Common

  type Id = string
  type Digest = string

  const MAX_ITEMS := 256
  const MAX_TOPOLOGY_CHANGES := 64
  const MAX_RESOURCE_SCALAR := 1000000000000.0

  // ---- resources ----

  /** A budget or a usage; the decimals are exact. */
  datatype Resources = Resources(
    cost: real, compute: real, tokens: int, elapsed: real, toolCalls: int, interventions: int)

  const ZERO := Resources(0.0, 0.0, 0, 0.0, 0, 0)

  function Plus(a: Resources, b: Resources): Resources
  {
    Resources(a.cost + b.cost, a.compute + b.compute, a.tokens + b.tokens, a.elapsed + b.elapsed,
              a.toolCalls + b.toolCalls, a.interventions + b.interventions)
  }

  function Minus(a: Resources, b: Resources): Resources
  {
    Resources(a.cost - b.cost, a.compute - b.compute, a.tokens - b.tokens, a.elapsed - b.elapsed,
              a.toolCalls - b.toolCalls, a.interventions - b.interventions)
  }

  predicate Within(used: Resources, budget: Resources)
  {
    && used.cost <= budget.cost && used.compute <= budget.compute && used.tokens <= budget.tokens
    && used.elapsed <= budget.elapsed && used.toolCalls <= budget.toolCalls && used.interventions <= budget.interventions
  }

  predicate Bounded(r: Resources)
  {
    && r.cost <= MAX_RESOURCE_SCALAR && r.compute <= MAX_RESOURCE_SCALAR && r.elapsed <= MAX_RESOURCE_SCALAR
    && r.tokens as real <= MAX_RESOURCE_SCALAR && r.toolCalls as real <= MAX_RESOURCE_SCALAR
    && r.interventions as real <= MAX_RESOURCE_SCALAR
  }

  function Sum(usages: seq<Resources>): Resources
  {
    if usages == [] then ZERO else Plus(Sum(usages[..|usages| - 1]), usages[|usages| - 1])
  }

  // ---- records ----

  datatype Budget = Budget(
    maxHops: int, maxContributions: int, maxPerPeer: int, maxTopologyChanges: int, maxParentDepth: int,
    maxRepetitions: int, maxChurn: int, maxShare: real, resources: Resources)

  datatype Cohort = Cohort(planId: Id, content: string)

  /** The roster is in canonical order, so filtering it keeps candidates sorted. */
  datatype Session = Session(
    sessionId: Id, contentHash: Digest, cohort: Cohort, roster: seq<Id>, capabilities: set<Id>,
    allowedArtifacts: set<Id>, allowedTools: set<Id>, allowedKinds: set<Id>,
    declaredEdges: set<(Id, Id)>, initialActive: set<Id>,
    minContributions: int, requiredKind: Option<Id>, budget: Budget, governingPolicy: Digest)

  datatype Topology = Topology(active: set<Id>, edges: set<(Id, Id)>)

  datatype Operation = Activate(peer: Id) | Deactivate(peer: Id) | Enable(edge: (Id, Id)) | Disable(edge: (Id, Id))

  datatype TopologyEvent = TopologyEvent(
    eventId: Id, sessionId: Id, sequence: int, before: Digest, operation: Operation, after: Digest)

  datatype Request = Request(
    requestId: Id, sessionId: Id, sequence: int, recipient: Id, sender: Option<Id>, capability: Id,
    tools: set<Id>, artifacts: set<Id>, parent: Option<Id>, remaining: Resources)

  datatype Contribution = Contribution(
    contributionId: Id, sessionId: Id, requestId: Id, peer: Id, parents: seq<Id>, kind: Id,
    artifacts: set<Id>, tools: set<Id>)

  datatype Transition =
    | PeerExchange(position: int, requestId: Id, contributionId: Id)
    | TopologyChange(position: int, eventId: Id)

  datatype Reason =
    | Completed | MaxHopsReached | MaxContributionsReached | PerPeerLimitReached
    | TopologyChangeLimitReached | NoEligiblePeer | RepeatedStateLoop | TopologyChurn | ContributionMonopoly

  /** What a cycle projection hashes. */
  datatype CycleKey = CycleKey(
    session: Digest, topology: Digest, peers: multiset<Id>, kinds: multiset<Id>, lastPeer: Option<Id>,
    usage: Resources, completed: bool)

  /** What a semantic state observation hashes. */
  datatype SemanticKey = SemanticKey(
    session: Digest, topology: Digest, priorTopology: Option<Digest>, eventCount: int, churn: int,
    peers: multiset<Id>, kinds: multiset<Id>, lastPeer: Option<Id>, usage: Resources,
    requestIds: multiset<Id>, depths: map<Id, int>, cycles: multiset<Digest>, completed: bool)

  /** The content hashes, uninterpreted. */
  datatype Hashing = Hashing(
    topology: Topology -> Digest, cycle: CycleKey -> Digest, semantic: SemanticKey -> Digest)

  datatype State = State(
    session: Session, topology: Topology, topologyHistory: seq<Topology>, topologyEvents: seq<TopologyEvent>,
    requests: seq<Request>, contributions: seq<Contribution>, usageHistory: seq<Resources>, usage: Resources,
    hopCount: int, schedulingPosition: int, transitions: seq<Transition>,
    observed: seq<Digest>, cycles: seq<Digest>, completed: bool)

  /** The declared envelope of a session. */
  predicate ValidSession(s: Session)
  {
    && (forall i, j :: 0 <= i < j < |s.roster| ==> s.roster[i] != s.roster[j])
    && (forall p :: p in s.initialActive ==> p in s.roster)
    && (forall e :: e in s.declaredEdges ==> e.0 in s.roster && e.1 in s.roster)
    && 1 <= s.minContributions
    && (s.requiredKind.Some? ==> s.requiredKind.value in s.allowedKinds)
    && 1 <= s.budget.maxHops <= MAX_ITEMS && 1 <= s.budget.maxContributions <= MAX_ITEMS
    && 1 <= s.budget.maxPerPeer && 0 <= s.budget.maxTopologyChanges <= MAX_TOPOLOGY_CHANGES
    && 0 <= s.budget.maxParentDepth && 1 <= s.budget.maxRepetitions && 1 <= s.budget.maxChurn
    && 0.0 < s.budget.maxShare <= 1.0
    && Within(ZERO, s.budget.resources) && Bounded(s.budget.resources)
  }

  // ---- views of a contribution history ----

  function PeerIds(cs: seq<Contribution>): seq<Id>
  {
    seq(|cs|, i requires 0 <= i < |cs| => cs[i].peer)
  }

  function Kinds(cs: seq<Contribution>): seq<Id>
  {
    seq(|cs|, i requires 0 <= i < |cs| => cs[i].kind)
  }

  function ContributionIds(cs: seq<Contribution>): set<Id>
  {
    set c | c in cs :: c.contributionId
  }

  function RequestIds(rs: seq<Request>): seq<Id>
  {
    seq(|rs|, i requires 0 <= i < |rs| => rs[i].requestId)
  }

  function LastPeer(cs: seq<Contribution>): Option<Id>
  {
    if cs == [] then None else Some(cs[|cs| - 1].peer)
  }

  function Deepest(depths: map<Id, int>, parents: seq<Id>): int
  {
    if parents == [] then 0
    else
      var rest := Deepest(depths, parents[1..]);
      var first := if parents[0] in depths then depths[parents[0]] else 0;
      if first > rest then first else rest
  }

  function DepthBelow(depths: map<Id, int>, parents: seq<Id>): int
  {
    if parents == [] then 0 else 1 + Deepest(depths, parents)
  }

  function Depths(cs: seq<Contribution>): map<Id, int>
  {
    if cs == [] then map[]
    else
      var earlier := Depths(cs[..|cs| - 1]);
      var last := cs[|cs| - 1];
      earlier[last.contributionId := DepthBelow(earlier, last.parents)]
  }

  function IsCompleted(s: Session, cs: seq<Contribution>): bool
  {
    |cs| >= s.minContributions && (s.requiredKind.Some? ==> s.requiredKind.value in Kinds(cs))
  }

  /** How often a topology equals the one two steps before it. */
  function Churn(h: Hashing, history: seq<Topology>): int
  {
    if |history| <= 2 then 0
    else
      Churn(h, history[..|history| - 1])
      + (if h.topology(history[|history| - 1]) == h.topology(history[|history| - 3]) then 1 else 0)
  }

  function PriorHash(h: Hashing, history: seq<Topology>): Option<Digest>
  {
    if |history| >= 2 then Some(h.topology(history[|history| - 2])) else None
  }

  // ---- scheduling and termination ----

  function EligiblePeers(s: Session, t: Topology, counts: multiset<Id>, last: Option<Id>): seq<Id>
  {
    Filter((p: Id) => p in t.active && counts[p] < s.budget.maxPerPeer && (last.Some? ==> (last.value, p) in t.edges), s.roster)
  }

  function FirstEligible(s: Session, t: Topology, counts: multiset<Id>, last: Option<Id>): Option<Id>
  {
    var eligible := EligiblePeers(s, t, counts, last);
    if eligible == [] then None else Some(eligible[0])
  }

  function ReasonFrom(s: Session, t: Topology, eventCount: int, contributionCount: int, counts: multiset<Id>,
                      last: Option<Id>, cycles: multiset<Digest>, churn: int, completed: bool): Option<Reason>
  {
    var b := s.budget;
    if completed then Some(Completed)
    else if contributionCount >= b.maxHops then Some(MaxHopsReached)
    else if contributionCount >= b.maxContributions then Some(MaxContributionsReached)
    else if exists p | p in counts :: counts[p] >= b.maxPerPeer then Some(PerPeerLimitReached)
    else if eventCount != 0 && eventCount >= b.maxTopologyChanges then Some(TopologyChangeLimitReached)
    else if exists d | d in cycles :: cycles[d] - 1 > b.maxRepetitions then Some(RepeatedStateLoop)
    else if churn >= b.maxChurn then Some(TopologyChurn)
    else if contributionCount != 0 && exists p | p in counts :: counts[p] as real > b.maxShare * contributionCount as real
      then Some(ContributionMonopoly)
    else if FirstEligible(s, t, counts, last).None? then Some(NoEligiblePeer)
    else None
  }

  function TerminationOf(h: Hashing, st: State): Option<Reason>
  {
    ReasonFrom(st.session, st.topology, |st.topologyEvents|, |st.contributions|, multiset(PeerIds(st.contributions)),
               LastPeer(st.contributions), multiset(st.cycles), Churn(h, st.topologyHistory), st.completed)
  }

  function NextPeer(h: Hashing, st: State): Option<Id>
  {
    if TerminationOf(h, st).Some? then None
    else FirstEligible(st.session, st.topology, multiset(PeerIds(st.contributions)), LastPeer(st.contributions))
  }

  // ---- observations ----

  function CycleOf(h: Hashing, s: Session, t: Topology, cs: seq<Contribution>, usages: seq<Resources>, completed: bool): Digest
  {
    h.cycle(CycleKey(s.contentHash, h.topology(t), multiset(PeerIds(cs)), multiset(Kinds(cs)), LastPeer(cs), Sum(usages), completed))
  }

  function SemanticOf(h: Hashing, s: Session, history: seq<Topology>, eventCount: int, cs: seq<Contribution>,
                      usages: seq<Resources>, requests: seq<Request>, cycles: seq<Digest>, completed: bool): Digest
    requires history != []
  {
    h.semantic(SemanticKey(
      s.contentHash, h.topology(history[|history| - 1]), PriorHash(h, history), eventCount, Churn(h, history),
      multiset(PeerIds(cs)), multiset(Kinds(cs)), LastPeer(cs), Sum(usages), multiset(RequestIds(requests)),
      Depths(cs), multiset(cycles), completed))
  }

  // ---- transitions ----

  function InitialTopology(s: Session): Topology
  {
    Topology(s.initialActive, set e | e in s.declaredEdges && e.0 in s.initialActive && e.1 in s.initialActive)
  }

  function Initial(h: Hashing, s: Session): State
  {
    var t := InitialTopology(s);
    var cycle := CycleOf(h, s, t, [], [], false);
    State(s, t, [t], [], [], [], [], ZERO, 0, 0, [],
          [SemanticOf(h, s, [t], 0, [], [], [], [cycle], false)], [cycle], false)
  }

  /** Every check `advance_collaboration` makes before it builds the next state. */
  predicate ExchangeChecks(h: Hashing, s: Session, st: State, r: Request, c: Contribution, usage: Resources)
  {
    && st.session == s
    && TerminationOf(h, st).None?
    && NextPeer(h, st) == Some(r.recipient)
    && r.sessionId == s.sessionId && r.sequence == |st.requests| + 1
    && r.sender == LastPeer(st.contributions)
    && c.sessionId == s.sessionId
    && c.requestId == r.requestId
    && c.peer == r.recipient
    && c.contributionId !in ContributionIds(st.contributions)
    && r.capability in s.capabilities
    && c.kind in s.allowedKinds
    && r.artifacts <= s.allowedArtifacts && c.artifacts <= s.allowedArtifacts
    && r.tools <= s.allowedTools && c.tools <= s.allowedTools
    && ParentsDeclared(ContributionIds(st.contributions), r, c)
    && DepthBelow(Depths(st.contributions), c.parents) <= s.budget.maxParentDepth
    && Within(Sum(st.usageHistory), s.budget.resources)
    && r.remaining == Minus(s.budget.resources, Sum(st.usageHistory))
    && Within(Sum(st.usageHistory + [usage]), s.budget.resources)
  }

  predicate ParentsDeclared(known: set<Id>, r: Request, c: Contribution)
  {
    && (r.parent.Some? ==> r.parent.value in known && r.parent.value in c.parents)
    && (forall p :: p in c.parents ==> p in known)
  }

  function AfterExchange(h: Hashing, st: State, r: Request, c: Contribution, usage: Resources): State
    requires st.topologyHistory != []
  {
    var cs := st.contributions + [c];
    var usages := st.usageHistory + [usage];
    var completed := IsCompleted(st.session, cs);
    var cycle := CycleOf(h, st.session, st.topology, cs, usages, completed);
    var cycles := st.cycles + [cycle];
    var semantic := SemanticOf(h, st.session, st.topologyHistory, |st.topologyEvents|, cs, usages, st.requests + [r], cycles, completed);
    st.(requests := st.requests + [r], contributions := cs, usageHistory := usages, usage := Sum(usages),
        hopCount := st.hopCount + 1, schedulingPosition := st.schedulingPosition + 1,
        transitions := st.transitions + [PeerExchange(st.schedulingPosition + 1, r.requestId, c.contributionId)],
        observed := st.observed + [semantic], cycles := cycles, completed := completed)
  }

  function Advance(h: Hashing, s: Session, st: State, r: Request, c: Contribution, usage: Resources): Result<State>
  {
    if st.topologyHistory != [] && ExchangeChecks(h, s, st, r, c, usage) && Validates(h, AfterExchange(h, st, r, c, usage))
    then Ok(AfterExchange(h, st, r, c, usage))
    else Raised
  }

  function ApplyOperation(s: Session, t: Topology, op: Operation): Result<Topology>
  {
    match op
    case Activate(p) =>
      if p in s.roster && p !in t.active then Ok(Topology(t.active + {p}, t.edges)) else Raised
    case Deactivate(p) =>
      if p in s.roster && p in t.active
      then Ok(Topology(t.active - {p}, set e | e in t.edges && e.0 != p && e.1 != p))
      else Raised
    case Enable(e) =>
      if e in s.declaredEdges && e.0 in t.active && e.1 in t.active && e !in t.edges
      then Ok(Topology(t.active, t.edges + {e})) else Raised
    case Disable(e) =>
      if e in s.declaredEdges && e.0 in t.active && e.1 in t.active && e in t.edges
      then Ok(Topology(t.active, t.edges - {e})) else Raised
  }

  predicate TopologyChecks(h: Hashing, s: Session, st: State, e: TopologyEvent)
  {
    && st.session == s
    && TerminationOf(h, st).None?
    && |st.topologyEvents| < s.budget.maxTopologyChanges
    && e.sessionId == s.sessionId && e.sequence == |st.topologyEvents| + 1
    && e.before == h.topology(st.topology)
    && var after := ApplyOperation(s, st.topology, e.operation);
    && after.Ok?
    && e.after == h.topology(after.value)
  }

  function AfterTopology(h: Hashing, st: State, e: TopologyEvent, after: Topology): State
  {
    var history := st.topologyHistory + [after];
    var cycle := CycleOf(h, st.session, after, st.contributions, st.usageHistory, st.completed);
    var cycles := st.cycles + [cycle];
    var semantic := SemanticOf(h, st.session, history, |st.topologyEvents| + 1, st.contributions, st.usageHistory, st.requests, cycles, st.completed);
    st.(topology := after, topologyHistory := history, topologyEvents := st.topologyEvents + [e],
        schedulingPosition := st.schedulingPosition + 1,
        transitions := st.transitions + [TopologyChange(st.schedulingPosition + 1, e.eventId)],
        observed := st.observed + [semantic], cycles := cycles)
  }

  function ApplyTopology(h: Hashing, s: Session, st: State, e: TopologyEvent): Result<State>
  {
    if TopologyChecks(h, s, st, e) && Validates(h, AfterTopology(h, st, e, ApplyOperation(s, st.topology, e.operation).value))
    then Ok(AfterTopology(h, st, e, ApplyOperation(s, st.topology, e.operation).value))
    else Raised
  }

  // ---- the batch validator ----

  /** The running totals of the journal replay. */
  datatype Totals = Totals(
    events: nat, exchanges: nat, lastPeer: Option<Id>, topology: Topology, peers: multiset<Id>,
    kinds: multiset<Id>, cycles: multiset<Digest>, topologyHashes: seq<Digest>, churn: int,
    priorTopology: Option<Digest>, usage: Resources, requestIds: set<Id>, depths: map<Id, int>, completed: bool)

  function CycleFrom(h: Hashing, s: Session, x: Totals): Digest
  {
    h.cycle(CycleKey(s.contentHash, h.topology(x.topology), x.peers, x.kinds, x.lastPeer, x.usage, x.completed))
  }

  function SemanticFrom(h: Hashing, s: Session, x: Totals): Digest
  {
    h.semantic(SemanticKey(s.contentHash, h.topology(x.topology), x.priorTopology, x.events, x.churn, x.peers, x.kinds,
                           x.lastPeer, x.usage, multiset(x.requestIds), x.depths, x.cycles, x.completed))
  }

  /** Count the cycle projection, then compare both observations at this position. */
  function Observe(h: Hashing, st: State, x: Totals, position: nat): Result<Totals>
  {
    var counted := x.(cycles := x.cycles + multiset{CycleFrom(h, st.session, x)});
    if position < |st.observed| && position < |st.cycles|
       && st.observed[position] == SemanticFrom(h, st.session, counted)
       && st.cycles[position] == CycleFrom(h, st.session, x)
    then Ok(counted) else Raised
  }

  /** Consume the next topology event. */
  function EventStep(h: Hashing, st: State, x: Totals, eventId: Id): Result<Totals>
  {
    if x.events >= |st.topologyEvents| || x.events + 1 >= |st.topologyHistory|
       || eventId != st.topologyEvents[x.events].eventId
    then Raised
    else
      var topology := st.topologyHistory[x.events + 1];
      var n := |x.topologyHashes|;
      var churned := n >= 2 && h.topology(topology) == x.topologyHashes[n - 2];
      Ok(x.(events := x.events + 1, priorTopology := Some(h.topology(x.topology)), topology := topology,
            churn := x.churn + (if churned then 1 else 0),
            topologyHashes := x.topologyHashes + [h.topology(topology)]))
  }

  predicate ExchangeFits(st: State, x: Totals, requestId: Id, contributionId: Id)
  {
    && x.exchanges < |st.requests| && x.exchanges < |st.contributions| && x.exchanges < |st.usageHistory|
    && requestId == st.requests[x.exchanges].requestId
    && contributionId == st.contributions[x.exchanges].contributionId
    && st.requests[x.exchanges].sender == x.lastPeer
    && FirstEligible(st.session, x.topology, x.peers, x.lastPeer) == Some(st.requests[x.exchanges].recipient)
    && Within(Plus(x.usage, st.usageHistory[x.exchanges]), st.session.budget.resources)
  }

  /** Consume the next request, contribution and usage. */
  function ExchangeStep(st: State, x: Totals, requestId: Id, contributionId: Id): Result<Totals>
  {
    if !ExchangeFits(st, x, requestId, contributionId) then Raised
    else
      var r, c := st.requests[x.exchanges], st.contributions[x.exchanges];
      var kinds := x.kinds + multiset{c.kind};
      Ok(x.(exchanges := x.exchanges + 1, usage := Plus(x.usage, st.usageHistory[x.exchanges]),
            peers := x.peers + multiset{c.peer}, kinds := kinds, lastPeer := Some(c.peer),
            requestIds := x.requestIds + {r.requestId},
            depths := x.depths[c.contributionId := DepthBelow(x.depths, c.parents)],
            completed := x.exchanges + 1 >= st.session.minContributions
                         && (st.session.requiredKind.Some? ==> st.session.requiredKind.value in kinds)))
  }

  function TransitionStep(h: Hashing, st: State, x: Totals, transition: Transition): Result<Totals>
  {
    match transition
    case TopologyChange(_, eventId) => EventStep(h, st, x, eventId)
    case PeerExchange(_, requestId, contributionId) => ExchangeStep(st, x, requestId, contributionId)
  }

  function ReplayStep(h: Hashing, st: State, x: Totals, position: nat): Result<Totals>
  {
    if !(1 <= position <= |st.transitions|) || st.transitions[position - 1].position != position
       || ReasonFrom(st.session, x.topology, x.events, x.exchanges, x.peers, x.lastPeer, x.cycles, x.churn, x.completed).Some?
    then Raised
    else
      var moved := TransitionStep(h, st, x, st.transitions[position - 1]);
      if moved.Raised? then Raised else Observe(h, st, moved.value, position)
  }

  function ReplayStart(h: Hashing, st: State): Result<Totals>
  {
    if st.topologyHistory == [] then Raised
    else
      var t := st.topologyHistory[0];
      Observe(h, st, Totals(0, 0, None, t, multiset{}, multiset{}, multiset{}, [h.topology(t)], 0, None, ZERO, {}, map[], false), 0)
  }

  /** A loop over positions 1..n that stops at the first error. */
  function Loop<X>(step: (X, nat) -> Result<X>, start: Result<X>, n: nat): Result<X>
  {
    if n == 0 then start
    else
      var earlier := Loop(step, start, n - 1);
      if earlier.Raised? then Raised else step(earlier.value, n)
  }

  function StepOf(h: Hashing, st: State): (Totals, nat) -> Result<Totals>
  {
    (x: Totals, position: nat) => ReplayStep(h, st, x, position)
  }

  function ReplayTo(h: Hashing, st: State, n: nat): Result<Totals>
  {
    Loop(StepOf(h, st), ReplayStart(h, st), n)
  }

  predicate ReplayAuthentic(h: Hashing, st: State)
  {
    && |st.observed| == |st.transitions| + 1 && |st.cycles| == |st.transitions| + 1
    && var final := ReplayTo(h, st, |st.transitions|);
    && final.Ok?
    && final.value.events == |st.topologyEvents| && final.value.exchanges == |st.requests|
    && final.value.topology == st.topology
  }

  predicate EventBinds(h: Hashing, s: Session, index: nat, e: TopologyEvent, before: Topology, after: Topology)
  {
    && e.sequence == index + 1 && e.sessionId == s.sessionId
    && e.before == h.topology(before) && e.after == h.topology(after)
    && ApplyOperation(s, before, e.operation) == Ok(after)
  }

  /** The per-exchange checks of the validator, against the exchanges before it. */
  predicate ExchangeBinds(s: Session, index: nat, requests: seq<Request>, cs: seq<Contribution>, usages: seq<Resources>,
                          r: Request, c: Contribution, usage: Resources)
  {
    && r.sequence == index + 1
    && r.sessionId == s.sessionId && c.sessionId == s.sessionId
    && c.requestId == r.requestId
    && r.requestId !in RequestIds(requests)
    && r.recipient == c.peer
    && r.recipient in s.roster && (r.sender.Some? ==> r.sender.value in s.roster)
    && r.capability in s.capabilities
    && r.tools <= s.allowedTools && c.tools <= s.allowedTools
    && r.artifacts <= s.allowedArtifacts && c.artifacts <= s.allowedArtifacts
    && ParentsDeclared(ContributionIds(cs), r, c)
    && c.kind in s.allowedKinds
    && DepthBelow(Depths(cs), c.parents) <= s.budget.maxParentDepth
    && c.contributionId !in ContributionIds(cs)
    && Within(Sum(usages), s.budget.resources)
    && r.remaining == Minus(s.budget.resources, Sum(usages))
    && Within(Plus(Sum(usages), usage), s.budget.resources)
  }

  /** The validator's checks that the histories fit together. */
  predicate LengthsValid(st: State)
  {
    && |st.topologyHistory| == |st.topologyEvents| + 1
    && st.topology == st.topologyHistory[|st.topologyHistory| - 1]
    && |st.requests| == |st.contributions| == |st.usageHistory|
    && st.hopCount == |st.contributions|
    && st.schedulingPosition == |st.contributions| + |st.topologyEvents| == |st.transitions|
    && st.completed == IsCompleted(st.session, st.contributions)
  }

  /** The validator's budget checks. */
  predicate BudgetsValid(st: State)
  {
    var b := st.session.budget;
    && st.hopCount <= b.maxHops
    && |st.contributions| <= b.maxContributions
    && |st.topologyEvents| <= b.maxTopologyChanges
    && |st.contributions| <= MAX_ITEMS && |st.topologyEvents| <= MAX_TOPOLOGY_CHANGES
    && PeersWithinLimit(b.maxPerPeer, multiset(PeerIds(st.contributions)))
    && st.usage == Sum(st.usageHistory) && Bounded(st.usage)
  }

  predicate PeersWithinLimit(limit: int, counts: multiset<Id>)
  {
    forall p :: p in counts ==> counts[p] <= limit
  }

  predicate ShapeValid(st: State)
  {
    LengthsValid(st) && BudgetsValid(st) && st.topologyHistory[0] == InitialTopology(st.session)
  }

  predicate EventsValid(h: Hashing, st: State)
    requires |st.topologyHistory| == |st.topologyEvents| + 1
  {
    forall i :: 0 <= i < |st.topologyEvents| ==>
      EventBinds(h, st.session, i, st.topologyEvents[i], st.topologyHistory[i], st.topologyHistory[i + 1])
  }

  predicate ExchangesValid(st: State)
    requires |st.requests| == |st.contributions| == |st.usageHistory|
  {
    forall i :: 0 <= i < |st.requests| ==>
      ExchangeBinds(st.session, i, st.requests[..i], st.contributions[..i], st.usageHistory[..i],
                    st.requests[i], st.contributions[i], st.usageHistory[i])
  }

  predicate Validates(h: Hashing, st: State)
  {
    ShapeValid(st) && EventsValid(h, st) && ExchangesValid(st) && ReplayAuthentic(h, st)
  }
}
