/** The collaboration session protocol twice: the handlers that admit proposals one by one, and
    the verifier that later accepts or refuses the whole recorded history. */
module CollaborationService {
  import opened Common
  import opened CollaborationEngine
  import opened CollaborationValidation

  // ---- the engine the service calls ----

  /** The transition functions as the service sees them. */
  datatype Engine = Engine(
    initial: Session -> State,
    advance: (Session, State, Request, Contribution, Resources) -> Result<State>,
    reshape: (Session, State, TopologyEvent) -> Result<State>,
    termination: State -> Option<Reason>,
    next: State -> Option<Id>)

  function EngineOf(h: Hashing): Engine
  {
    Engine((s: Session) => Initial(h, s),
           (s: Session, st: State, r: Request, c: Contribution, u: Resources) => Advance(h, s, st, r, c, u),
           (s: Session, st: State, e: TopologyEvent) => ApplyTopology(h, s, st, e),
           (st: State) => TerminationOf(h, st),
           (st: State) => NextPeer(h, st))
  }

  /** All that the service relies on: states keep what they are given, and a terminated state
      accepts no transition. */
  ghost predicate Lawful(g: Engine)
  {
    && (forall s :: Blank(s, g.initial(s)))
    && (forall s, st, r, c, u :: g.advance(s, st, r, c, u).Ok? ==>
          g.termination(st).None? && KeepsExchange(st, g.advance(s, st, r, c, u).value, r, c, u))
    && (forall s, st, e :: g.reshape(s, st, e).Ok? ==>
          g.termination(st).None? && KeepsEvent(st, g.reshape(s, st, e).value, e))
  }

  predicate Blank(s: Session, st: State)
  {
    st.session == s && st.requests == [] && st.contributions == [] && st.usageHistory == [] && st.topologyEvents == []
  }

  predicate KeepsExchange(st: State, next: State, r: Request, c: Contribution, usage: Resources)
  {
    && next.session == st.session && next.topologyEvents == st.topologyEvents
    && next.requests == st.requests + [r] && next.contributions == st.contributions + [c]
    && next.usageHistory == st.usageHistory + [usage]
    && c.contributionId !in ContributionIds(st.contributions)
  }

  predicate KeepsEvent(st: State, next: State, e: TopologyEvent)
  {
    && next.session == st.session && next.topologyEvents == st.topologyEvents + [e]
    && next.requests == st.requests && next.contributions == st.contributions && next.usageHistory == st.usageHistory
  }

  lemma EngineIsLawful(h: Hashing)
    ensures Lawful(EngineOf(h))
  {}

  // ---- rebuilding a session from its history ----

  datatype Record =
    | Asked(request: Request)
    | Answered(contribution: Contribution, usage: Resources)
    | Reshaped(event: TopologyEvent)

  datatype Rebuilt = Rebuilt(
    state: State, pending: Option<Request>,
    requestIds: set<Id>, contributionIds: set<Id>, eventIds: set<Id>)

  function Start(g: Engine, s: Session): Rebuilt
  {
    Rebuilt(g.initial(s), None, {}, {}, {})
  }

  /** One record against the state rebuilt so far. */
  function RebuildStep(g: Engine, s: Session, b: Rebuilt, record: Record): Option<Rebuilt>
  {
    match record
    case Asked(r) =>
      if b.pending.Some? || r.requestId in b.requestIds then None
      else Some(b.(pending := Some(r), requestIds := b.requestIds + {r.requestId}))
    case Answered(c, usage) =>
      if b.pending.None? || b.pending.value.requestId != c.requestId || c.contributionId in b.contributionIds then None
      else
        var next := g.advance(s, b.state, b.pending.value, c, usage);
        if next.Raised? then None
        else Some(b.(state := next.value, pending := None, contributionIds := b.contributionIds + {c.contributionId}))
    case Reshaped(e) =>
      if e.eventId in b.eventIds then None
      else
        var next := g.reshape(s, b.state, e);
        if next.Raised? then None
        else Some(b.(state := next.value, eventIds := b.eventIds + {e.eventId}))
  }

  function Rebuild(g: Engine, s: Session, history: seq<Record>): Option<Rebuilt>
  {
    if history == [] then Some(Start(g, s))
    else
      var earlier := Rebuild(g, s, history[..|history| - 1]);
      if earlier.None? then None else RebuildStep(g, s, earlier.value, history[|history| - 1])
  }

  lemma RebuildSnoc(g: Engine, s: Session, history: seq<Record>, record: Record)
    ensures Rebuild(g, s, history + [record])
         == if Rebuild(g, s, history).None? then None else RebuildStep(g, s, Rebuild(g, s, history).value, record)
  {}

  /** Once a history fails to rebuild, no continuation of it rebuilds. */
  lemma {:induction false} SuccessIsPrefixClosed(g: Engine, s: Session, history: seq<Record>, more: seq<Record>)
    requires Rebuild(g, s, history + more).Some?
    ensures Rebuild(g, s, history).Some?
  {
    if more == [] {
      assert history + more == history;
    } else {
      var front, last := more[..|more| - 1], more[|more| - 1];
      assert history + more == (history + front) + [last];
      RebuildSnoc(g, s, history + front, last);
      SuccessIsPrefixClosed(g, s, history, front);
    }
  }

  /** The loop of `rebuild_collaboration_state`. */
  method RebuildState(g: Engine, s: Session, history: seq<Record>) returns (result: Option<Rebuilt>)
    ensures result == Rebuild(g, s, history)
  {
    var state := g.initial(s);
    var pending: Option<Request> := None;
    var requestIds: set<Id> := {};
    var contributionIds: set<Id> := {};
    var eventIds: set<Id> := {};
    for i := 0 to |history|
      invariant Rebuild(g, s, history[..i]) == Some(Rebuilt(state, pending, requestIds, contributionIds, eventIds))
    {
      RebuildSnoc(g, s, history[..i], history[i]);
      assert history[..i] + [history[i]] == history[..i + 1];
      assert history == history[..i + 1] + history[i + 1..];
      if Rebuild(g, s, history).Some? {
        SuccessIsPrefixClosed(g, s, history[..i + 1], history[i + 1..]);
      }
      match history[i] {
        case Asked(r) =>
          if pending.Some? || r.requestId in requestIds {
            return None;
          }
          pending := Some(r);
          requestIds := requestIds + {r.requestId};
        case Answered(c, usage) =>
          if pending.None? || pending.value.requestId != c.requestId || c.contributionId in contributionIds {
            return None;
          }
          var next := g.advance(s, state, pending.value, c, usage);
          if next.Raised? {
            return None;
          }
          state := next.value;
          contributionIds := contributionIds + {c.contributionId};
          pending := None;
        case Reshaped(e) =>
          if e.eventId in eventIds {
            return None;
          }
          var next := g.reshape(s, state, e);
          if next.Raised? {
            return None;
          }
          state := next.value;
          eventIds := eventIds + {e.eventId};
      }
    }
    assert history[..|history|] == history;
    return Some(Rebuilt(state, pending, requestIds, contributionIds, eventIds));
  }

  // ---- what a rebuilt session retains ----

  /** The requests and contributions of a history, in order. */
  function Exchanges(history: seq<Record>): seq<Record>
  {
    if history == [] then []
    else
      var last := history[|history| - 1];
      Exchanges(history[..|history| - 1]) + (if last.Reshaped? then [] else [last])
  }

  function Events(history: seq<Record>): seq<TopologyEvent>
  {
    if history == [] then []
    else
      var last := history[|history| - 1];
      Events(history[..|history| - 1]) + (if last.Reshaped? then [last.event] else [])
  }

  /** Request, answer, request, answer, ... */
  function Paired(requests: seq<Request>, contributions: seq<Contribution>, usages: seq<Resources>): seq<Record>
    requires |requests| == |contributions| == |usages|
  {
    if requests == [] then []
    else
      var n := |requests| - 1;
      Paired(requests[..n], contributions[..n], usages[..n]) + [Asked(requests[n]), Answered(contributions[n], usages[n])]
  }

  ghost predicate EventIdsDistinct(events: seq<TopologyEvent>)
  {
    forall i, j :: 0 <= i < j < |events| ==> events[i].eventId != events[j].eventId
  }

  ghost predicate ContributionsDistinct(cs: seq<Contribution>)
  {
    forall i, j :: 0 <= i < j < |cs| ==> cs[i].contributionId != cs[j].contributionId
  }

  /** The rebuilt state holds exactly the history: strictly alternating requests and answers,
      the unanswered request if there is one, every topology event, and no id twice. */
  ghost predicate Retains(s: Session, history: seq<Record>, b: Rebuilt)
  {
    && b.state.session == s
    && |b.state.requests| == |b.state.contributions| == |b.state.usageHistory|
    && Exchanges(history) == Paired(b.state.requests, b.state.contributions, b.state.usageHistory)
                             + (if b.pending.Some? then [Asked(b.pending.value)] else [])
    && Events(history) == b.state.topologyEvents
    && DistinctRequests(b.state.requests) && ContributionsDistinct(b.state.contributions) && EventIdsDistinct(b.state.topologyEvents)
    && (b.pending.Some? ==> b.pending.value.requestId !in RequestIds(b.state.requests))
    && b.requestIds == (set id | id in RequestIds(b.state.requests)) + (if b.pending.Some? then {b.pending.value.requestId} else {})
    && b.contributionIds == ContributionIds(b.state.contributions)
    && b.eventIds == (set e | e in b.state.topologyEvents :: e.eventId)
  }

  lemma StartRetains(g: Engine, s: Session)
    requires Lawful(g)
    ensures Retains(s, [], Start(g, s))
  {}

  lemma AskedRetains(g: Engine, s: Session, history: seq<Record>, b: Rebuilt, r: Request)
    requires Lawful(g)
    requires Retains(s, history, b) && RebuildStep(g, s, b, Asked(r)).Some?
    ensures Retains(s, history + [Asked(r)], RebuildStep(g, s, b, Asked(r)).value)
  {}

  lemma PairedSnoc(rs: seq<Request>, cs: seq<Contribution>, us: seq<Resources>, r: Request, c: Contribution, u: Resources)
    requires |rs| == |cs| == |us|
    ensures Paired(rs + [r], cs + [c], us + [u]) == Paired(rs, cs, us) + [Asked(r)] + [Answered(c, u)]
  {}

  lemma NewContributionDistinct(cs: seq<Contribution>, c: Contribution)
    requires ContributionsDistinct(cs) && c.contributionId !in ContributionIds(cs)
    ensures ContributionsDistinct(cs + [c])
    ensures ContributionIds(cs + [c]) == ContributionIds(cs) + {c.contributionId}
  {}

  lemma AnsweredRetains(g: Engine, s: Session, history: seq<Record>, b: Rebuilt, c: Contribution, usage: Resources)
    requires Lawful(g)
    requires Retains(s, history, b) && RebuildStep(g, s, b, Answered(c, usage)).Some?
    ensures Retains(s, history + [Answered(c, usage)], RebuildStep(g, s, b, Answered(c, usage)).value)
  {
    var r := b.pending.value;
    assert (history + [Answered(c, usage)])[..|history + [Answered(c, usage)]| - 1] == history;
    PairedSnoc(b.state.requests, b.state.contributions, b.state.usageHistory, r, c, usage);
    NewRequestDistinct(b.state.requests, r);
    RequestIdsSnoc(b.state.requests, r);
    NewContributionDistinct(b.state.contributions, c);
  }

  lemma ReshapedRetains(g: Engine, s: Session, history: seq<Record>, b: Rebuilt, e: TopologyEvent)
    requires Lawful(g)
    requires Retains(s, history, b) && RebuildStep(g, s, b, Reshaped(e)).Some?
    ensures Retains(s, history + [Reshaped(e)], RebuildStep(g, s, b, Reshaped(e)).value)
  {}

  lemma {:induction false} RebuildRetains(g: Engine, s: Session, history: seq<Record>)
    requires Lawful(g)
    requires Rebuild(g, s, history).Some?
    ensures Retains(s, history, Rebuild(g, s, history).value)
  {
    if history == [] {
      StartRetains(g, s);
    } else {
      var front, last := history[..|history| - 1], history[|history| - 1];
      assert front + [last] == history;
      RebuildSnoc(g, s, front, last);
      RebuildRetains(g, s, front);
      var b := Rebuild(g, s, front).value;
      match last {
        case Asked(r) => AskedRetains(g, s, front, b, r);
        case Answered(c, usage) => AnsweredRetains(g, s, front, b, c, usage);
        case Reshaped(e) => ReshapedRetains(g, s, front, b, e);
      }
    }
  }

  // ---- the handlers ----

  datatype Code = AlreadyExists | StaleReference | PolicyMismatch | DerivationMismatch | BoundExceeded | Authority

  datatype Decision = Accepted | Rejected(code: Code)

  datatype Proposal =
    | RecordCohort(cohort: Cohort)
    | RecordSession(session: Session)
    | AppendRequest(request: Request)
    | AppendContribution(contribution: Contribution, usage: Resources)
    | AppendTopology(event: TopologyEvent)
    | RecordTermination(sessionId: Id, reason: Option<Reason>)

  /** The stored collaboration records, as the handlers read them. */
  datatype World = World(
    cohorts: map<Id, Cohort>, sessions: map<Id, Session>, history: map<Id, seq<Record>>,
    terminations: map<Id, Option<Reason>>)

  const EMPTY := World(map[], map[], map[], map[])

  /** A proposal with the policy that was active when it was decided. */
  datatype Entry = Entry(proposal: Proposal, policy: Digest)

  /** Whether the shared authority check passes; its rules are not part of this model. */
  type AuthorityCheck = Entry -> bool

  function HistoryOf(w: World, sessionId: Id): seq<Record>
  {
    if sessionId in w.history then w.history[sessionId] else []
  }

  function SessionIdOf(p: Proposal): Id
  {
    match p
    case RecordCohort(cohort) => cohort.planId
    case RecordSession(session) => session.sessionId
    case AppendRequest(request) => request.sessionId
    case AppendContribution(contribution, _) => contribution.sessionId
    case AppendTopology(event) => event.sessionId
    case RecordTermination(sessionId, _) => sessionId
  }

  predicate RequestFits(g: Engine, s: Session, st: State, r: Request)
  {
    && r.sequence == |st.contributions| + 1
    && Some(r.recipient) == g.next(st)
    && r.sender == LastPeer(st.contributions)
    && r.capability in s.capabilities
    && r.tools <= s.allowedTools && r.artifacts <= s.allowedArtifacts
    && (r.parent.Some? ==> r.parent.value in ContributionIds(st.contributions))
    && r.remaining == Minus(s.budget.resources, Sum(st.usageHistory))
  }

  function DecideSession(w: World, s: Session, policy: Digest): Decision
  {
    if s.governingPolicy != policy then Rejected(PolicyMismatch)
    else if s.cohort.planId !in w.cohorts || w.cohorts[s.cohort.planId] != s.cohort then Rejected(StaleReference)
    else if !ValidSession(s) then Rejected(DerivationMismatch)
    else if s.sessionId in w.sessions then Rejected(AlreadyExists)
    else Accepted
  }

  function DecideRequest(g: Engine, s: Session, b: Rebuilt, r: Request): Decision
  {
    if r.requestId in b.requestIds then Rejected(AlreadyExists)
    else if b.pending.Some? then Rejected(DerivationMismatch)
    else if g.termination(b.state).Some? then Rejected(BoundExceeded)
    else if !RequestFits(g, s, b.state, r) then Rejected(DerivationMismatch)
    else Accepted
  }

  function DecideContribution(g: Engine, s: Session, b: Rebuilt, c: Contribution, usage: Resources): Decision
  {
    if g.termination(b.state).Some? then Rejected(BoundExceeded)
    else if c.contributionId in b.contributionIds then Rejected(AlreadyExists)
    else if b.pending.None? || b.pending.value.requestId != c.requestId then Rejected(StaleReference)
    else if g.advance(s, b.state, b.pending.value, c, usage).Raised? then
      if !Within(Sum(b.state.usageHistory + [usage]), s.budget.resources) then Rejected(BoundExceeded)
      else Rejected(DerivationMismatch)
    else Accepted
  }

  function DecideTopology(g: Engine, s: Session, b: Rebuilt, e: TopologyEvent): Decision
  {
    if e.eventId in b.eventIds then Rejected(AlreadyExists)
    else if g.reshape(s, b.state, e).Raised? then
      if g.termination(b.state).Some? || |b.state.topologyEvents| >= s.budget.maxTopologyChanges
      then Rejected(BoundExceeded) else Rejected(DerivationMismatch)
    else Accepted
  }

  function DecideTermination(g: Engine, w: World, sessionId: Id, b: Rebuilt, reason: Option<Reason>): Decision
  {
    if sessionId in w.terminations then Rejected(AlreadyExists)
    else if g.termination(b.state).None? || g.termination(b.state) != reason then Rejected(DerivationMismatch)
    else Accepted
  }

  /** The decision of the handler for a proposal. A cohort id can be recorded once. */
  function Decide(g: Engine, authority: AuthorityCheck, w: World, entry: Entry): Decision
  {
    var p := entry.proposal;
    if !authority(entry) then Rejected(Authority)
    else if p.RecordCohort? then
      if p.cohort.planId in w.cohorts then Rejected(AlreadyExists) else Accepted
    else if p.RecordSession? then DecideSession(w, p.session, entry.policy)
    else
      var id := SessionIdOf(p);
      if id !in w.sessions then Rejected(StaleReference)
      else if w.sessions[id].governingPolicy != entry.policy then Rejected(PolicyMismatch)
      else
        var s := w.sessions[id];
        var b := Rebuild(g, s, HistoryOf(w, id));
        if b.None? then Rejected(StaleReference)
        else
          match p
          case AppendRequest(r) => DecideRequest(g, s, b.value, r)
          case AppendContribution(c, usage) => DecideContribution(g, s, b.value, c, usage)
          case AppendTopology(e) => DecideTopology(g, s, b.value, e)
          case RecordTermination(_, reason) => DecideTermination(g, w, id, b.value, reason)
          case _ => Rejected(Authority)
  }

  function RecordOf(p: Proposal): Record
    requires p.AppendRequest? || p.AppendContribution? || p.AppendTopology?
  {
    match p
    case AppendRequest(r) => Asked(r)
    case AppendContribution(c, usage) => Answered(c, usage)
    case AppendTopology(e) => Reshaped(e)
  }

  function Project(w: World, p: Proposal): World
  {
    match p
    case RecordCohort(cohort) => w.(cohorts := w.cohorts[cohort.planId := cohort])
    case RecordSession(s) => w.(sessions := w.sessions[s.sessionId := s])
    case RecordTermination(id, reason) => w.(terminations := w.terminations[id := reason])
    case _ => w.(history := w.history[SessionIdOf(p) := HistoryOf(w, SessionIdOf(p)) + [RecordOf(p)]])
  }

  /** The world after a log all of whose entries the handlers accept, in order. */
  function Online(g: Engine, authority: AuthorityCheck, log: seq<Entry>): Option<World>
  {
    if log == [] then Some(EMPTY)
    else
      var w := Online(g, authority, log[..|log| - 1]);
      var last := log[|log| - 1];
      if w.None? || !Decide(g, authority, w.value, last).Accepted? then None
      else Some(Project(w.value, last.proposal))
  }

  // ---- the verifier ----

  /** What the verifier accumulates; `sessions` is also kept in order of arrival. */
  datatype Expected = Expected(
    cohorts: map<Id, Cohort>, sessionsById: map<Id, Session>, sessions: seq<Session>,
    history: map<Id, seq<Record>>, terminated: set<Id>, terminations: seq<(Id, Option<Reason>)>)

  const NOTHING := Expected(map[], map[], [], map[], {}, [])

  function Recorded(v: Expected, sessionId: Id): seq<Record>
  {
    if sessionId in v.history then v.history[sessionId] else []
  }

  function FirstSession(sessions: seq<Session>, sessionId: Id): Option<Session>
  {
    if sessions == [] then None
    else if sessions[0].sessionId == sessionId then Some(sessions[0])
    else FirstSession(sessions[1..], sessionId)
  }

  function VerifyRequest(g: Engine, v: Expected, r: Request, policy: Digest): Result<Expected>
  {
    if r.sessionId !in v.sessionsById then Raised
    else
      var s := v.sessionsById[r.sessionId];
      var b := Rebuild(g, s, Recorded(v, r.sessionId));
      if b.None? || s.governingPolicy != policy || r.sessionId in v.terminated || b.value.pending.Some?
         || g.termination(b.value.state).Some? || !RequestFits(g, s, b.value.state, r)
      then Raised
      else VerifyAppend(g, v, s, Asked(r))
  }

  /** Append to the session's history and demand that it still rebuilds. */
  function VerifyAppend(g: Engine, v: Expected, s: Session, record: Record): Result<Expected>
  {
    var history := Recorded(v, s.sessionId) + [record];
    if Rebuild(g, s, history).None? then Raised
    else Ok(v.(history := v.history[s.sessionId := history]))
  }

  function VerifyLater(g: Engine, v: Expected, sessionId: Id, record: Record, policy: Digest): Result<Expected>
  {
    if sessionId !in v.sessionsById || v.sessionsById[sessionId].governingPolicy != policy || sessionId in v.terminated
    then Raised
    else VerifyAppend(g, v, v.sessionsById[sessionId], record)
  }

  function VerifyTermination(g: Engine, v: Expected, sessionId: Id, reason: Option<Reason>, policy: Digest): Result<Expected>
  {
    var s := FirstSession(v.sessions, sessionId);
    if s.None? then Raised
    else
      var b := Rebuild(g, s.value, Recorded(v, sessionId));
      if b.None? || s.value.governingPolicy != policy || sessionId in v.terminated || g.termination(b.value.state) != reason
      then Raised
      else Ok(v.(terminated := v.terminated + {sessionId}, terminations := v.terminations + [(sessionId, reason)]))
  }

  function VerifyStep(g: Engine, v: Expected, entry: Entry): Result<Expected>
  {
    match entry.proposal
    case RecordCohort(cohort) => Ok(v.(cohorts := v.cohorts[cohort.planId := cohort]))
    case RecordSession(s) =>
      if s.cohort.planId !in v.cohorts || v.cohorts[s.cohort.planId] != s.cohort
         || !ValidSession(s) || s.governingPolicy != entry.policy
      then Raised
      else Ok(v.(sessions := v.sessions + [s], sessionsById := v.sessionsById[s.sessionId := s]))
    case AppendRequest(r) => VerifyRequest(g, v, r, entry.policy)
    case AppendContribution(c, usage) => VerifyLater(g, v, c.sessionId, Answered(c, usage), entry.policy)
    case AppendTopology(e) => VerifyLater(g, v, e.sessionId, Reshaped(e), entry.policy)
    case RecordTermination(id, reason) => VerifyTermination(g, v, id, reason, entry.policy)
  }

  function Offline(g: Engine, log: seq<Entry>): Result<Expected>
  {
    if log == [] then Ok(NOTHING)
    else
      var v := Offline(g, log[..|log| - 1]);
      if v.Raised? then Raised else VerifyStep(g, v.value, log[|log| - 1])
  }

  /** Every session of the accumulated list rebuilds from its recorded history. */
  predicate AllRebuild(g: Engine, v: Expected)
  {
    forall s :: s in v.sessions ==> Rebuild(g, s, Recorded(v, s.sessionId)).Some?
  }

  lemma OfflineSnoc(g: Engine, log: seq<Entry>, entry: Entry)
    ensures Offline(g, log + [entry])
         == if Offline(g, log).Raised? then Raised else VerifyStep(g, Offline(g, log).value, entry)
  {}

  lemma {:induction false} OfflineFailsForGood(g: Engine, log: seq<Entry>, more: seq<Entry>)
    requires Offline(g, log).Raised?
    ensures Offline(g, log + more).Raised?
  {
    if more == [] {
      assert log + more == log;
    } else {
      var front, last := more[..|more| - 1], more[|more| - 1];
      OfflineFailsForGood(g, log, front);
      assert log + more == (log + front) + [last];
      OfflineSnoc(g, log + front, last);
    }
  }

  /** The collaboration part of the loop of `expected_cognitive_snapshot`. */
  method VerifyLog(g: Engine, log: seq<Entry>) returns (result: Result<Expected>)
    ensures result == Offline(g, log)
  {
    hide VerifyStep;
    var v := NOTHING;
    for i := 0 to |log|
      invariant Offline(g, log[..i]) == Ok(v)
    {
      OfflineSnoc(g, log[..i], log[i]);
      assert log[..i] + [log[i]] == log[..i + 1];
      var next := VerifyStep(g, v, log[i]);
      if next.Raised? {
        OfflineFailsForGood(g, log[..i + 1], log[i + 1..]);
        assert log[..i + 1] + log[i + 1..] == log;
        return Raised;
      }
      v := next.value;
    }
    assert log[..|log|] == log;
    return Ok(v);
  }

  /** The same loop followed by the final pass over all sessions. */
  method ExpectedCollaboration(g: Engine, log: seq<Entry>) returns (result: Result<Expected>)
    ensures result == if Offline(g, log).Ok? && AllRebuild(g, Offline(g, log).value) then Offline(g, log) else Raised
  {
    hide Offline;
    result := VerifyLog(g, log);
    if result.Raised? {
      return;
    }
    var v := result.value;
    for i := 0 to |v.sessions|
      invariant forall j :: 0 <= j < i ==> Rebuild(g, v.sessions[j], Recorded(v, v.sessions[j].sessionId)).Some?
    {
      var s := v.sessions[i];
      var rebuilt := RebuildState(g, s, if s.sessionId in v.history then v.history[s.sessionId] else []);
      if rebuilt.None? {
        return Raised;
      }
    }
  }

  // ---- the two acceptors agree ----

  function CohortIds(log: seq<Entry>): set<Id>
  {
    set e | e in log && e.proposal.RecordCohort? :: e.proposal.cohort.planId
  }

  function SessionIds(log: seq<Entry>): set<Id>
  {
    set e | e in log && e.proposal.RecordSession? :: e.proposal.session.sessionId
  }

  /** What the log alone must satisfy for one entry: authority, a fresh cohort or session id,
      and a termination that names a reason. */
  predicate EntryRules(authority: AuthorityCheck, earlier: seq<Entry>, entry: Entry)
  {
    && authority(entry)
    && (entry.proposal.RecordCohort? ==> entry.proposal.cohort.planId !in CohortIds(earlier))
    && (entry.proposal.RecordSession? ==> entry.proposal.session.sessionId !in SessionIds(earlier))
    && (entry.proposal.RecordTermination? ==> entry.proposal.reason.Some?)
  }

  predicate LogRules(authority: AuthorityCheck, log: seq<Entry>)
  {
    log == [] || (LogRules(authority, log[..|log| - 1]) && EntryRules(authority, log[..|log| - 1], log[|log| - 1]))
  }

  /** What every accepted run keeps: stored histories rebuild, and a recorded termination is the
      one the session's state still has. */
  ghost predicate WorldSound(g: Engine, w: World)
  {
    && (forall id :: id in w.history ==> id in w.sessions)
    && (forall id :: id in w.terminations ==> id in w.sessions)
    && (forall id :: id in w.sessions ==> w.sessions[id].sessionId == id && SessionSound(g, w, id))
  }

  ghost predicate SessionSound(g: Engine, w: World, id: Id)
    requires id in w.sessions
  {
    var b := Rebuild(g, w.sessions[id], HistoryOf(w, id));
    && b.Some?
    && (id in w.terminations ==> w.terminations[id].Some? && g.termination(b.value.state) == w.terminations[id])
  }

  ghost predicate Matches(w: World, v: Expected)
  {
    && v.cohorts == w.cohorts && v.sessionsById == w.sessions && v.history == w.history
    && v.terminated == w.terminations.Keys
    && (forall id :: FirstSession(v.sessions, id) == if id in w.sessions then Some(w.sessions[id]) else None)
    && (forall s :: s in v.sessions ==> s.sessionId in w.sessions && w.sessions[s.sessionId] == s)
  }

  lemma {:induction false} FirstSessionSnoc(sessions: seq<Session>, s: Session, id: Id)
    ensures FirstSession(sessions + [s], id)
         == if FirstSession(sessions, id).Some? then FirstSession(sessions, id)
            else if s.sessionId == id then Some(s) else None
  {
    if sessions != [] {
      FirstSessionSnoc(sessions[1..], s, id);
      assert (sessions + [s])[1..] == sessions[1..] + [s];
    } else {
      assert [] + [s] == [s];
    }
  }

  /** The next record of a terminated session never rebuilds, unless it is a bare request. */
  lemma TerminatedStops(g: Engine, s: Session, b: Rebuilt, record: Record)
    requires Lawful(g) && g.termination(b.state).Some? && !record.Asked?
    ensures RebuildStep(g, s, b, record).None?
  {}

  lemma SessionKeepsSound(g: Engine, w: World, s: Session)
    requires WorldSound(g, w) && s.sessionId !in w.sessions
    ensures WorldSound(g, Project(w, RecordSession(s)))
  {
    hide Rebuild;
    var w' := Project(w, RecordSession(s));
    assert HistoryOf(w', s.sessionId) == [];
    RebuildOfNothing(g, s);
    forall id | id in w'.sessions
      ensures w'.sessions[id].sessionId == id && SessionSound(g, w', id)
    {
      if id != s.sessionId {
        assert SessionSound(g, w, id);
        assert HistoryOf(w', id) == HistoryOf(w, id);
      }
    }
  }

  lemma RebuildOfNothing(g: Engine, s: Session)
    ensures Rebuild(g, s, []) == Some(Start(g, s))
  {}

  lemma SessionMatches(w: World, v: Expected, s: Session)
    requires Matches(w, v) && s.sessionId !in w.sessions
    ensures Matches(Project(w, RecordSession(s)), v.(sessions := v.sessions + [s], sessionsById := v.sessionsById[s.sessionId := s]))
  {
    hide FirstSession;
    forall id
      ensures FirstSession(v.sessions + [s], id) == if id in w.sessions then Some(w.sessions[id]) else if id == s.sessionId then Some(s) else None
    {
      FirstSessionSnoc(v.sessions, s, id);
    }
  }

  lemma SessionDecides(g: Engine, authority: AuthorityCheck, w: World, v: Expected, s: Session, policy: Digest)
    requires w.cohorts == v.cohorts && authority(Entry(RecordSession(s), policy))
    ensures
      var entry := Entry(RecordSession(s), policy);
      && (Decide(g, authority, w, entry).Accepted? <==> VerifyStep(g, v, entry).Ok? && s.sessionId !in w.sessions)
      && (VerifyStep(g, v, entry).Ok? ==>
            VerifyStep(g, v, entry).value == v.(sessions := v.sessions + [s], sessionsById := v.sessionsById[s.sessionId := s]))
  {
    hide ValidSession, Rebuild;
  }

  lemma SessionAgrees(g: Engine, authority: AuthorityCheck, w: World, v: Expected, s: Session, policy: Digest)
    requires WorldSound(g, w) && Matches(w, v) && authority(Entry(RecordSession(s), policy))
    ensures
      var entry := Entry(RecordSession(s), policy);
      && (Decide(g, authority, w, entry).Accepted? <==> VerifyStep(g, v, entry).Ok? && s.sessionId !in w.sessions)
      && (Decide(g, authority, w, entry).Accepted? ==>
            WorldSound(g, Project(w, entry.proposal)) && Matches(Project(w, entry.proposal), VerifyStep(g, v, entry).value))
  {
    hide WorldSound, Decide, VerifyStep, Project, FirstSession;
    SessionDecides(g, authority, w, v, s, policy);
    if s.sessionId !in w.sessions {
      SessionKeepsSound(g, w, s);
      SessionMatches(w, v, s);
    }
  }

  lemma AppendKeepsSound(g: Engine, w: World, p: Proposal)
    requires WorldSound(g, w)
    requires p.AppendRequest? || p.AppendContribution? || p.AppendTopology?
    requires SessionIdOf(p) in w.sessions && SessionIdOf(p) !in w.terminations
    requires Rebuild(g, w.sessions[SessionIdOf(p)], HistoryOf(w, SessionIdOf(p)) + [RecordOf(p)]).Some?
    ensures WorldSound(g, Project(w, p))
  {}

  lemma RequestVerifies(g: Engine, w: World, v: Expected, r: Request, policy: Digest)
    requires WorldSound(g, w) && Matches(w, v) && r.sessionId in w.sessions
    ensures
      var s := w.sessions[r.sessionId];
      var b := Rebuild(g, s, HistoryOf(w, r.sessionId));
      b.Some? &&
      (VerifyRequest(g, v, r, policy).Ok?
       <==> s.governingPolicy == policy && r.sessionId !in w.terminations && DecideRequest(g, s, b.value, r).Accepted?)
  {}

  lemma RequestRebuilds(g: Engine, w: World, r: Request)
    requires WorldSound(g, w) && r.sessionId in w.sessions
    requires
      var b := Rebuild(g, w.sessions[r.sessionId], HistoryOf(w, r.sessionId));
      b.Some? && DecideRequest(g, w.sessions[r.sessionId], b.value, r).Accepted?
    ensures r.sessionId !in w.terminations
    ensures WorldSound(g, Project(w, AppendRequest(r)))
  {}

  /** A request: both acceptors make the same checks, and the verifier's final rebuild is the
      handler's check that the request id is new. */
  lemma RequestAgrees(g: Engine, authority: AuthorityCheck, w: World, v: Expected, r: Request, policy: Digest)
    requires WorldSound(g, w) && Matches(w, v) && authority(Entry(AppendRequest(r), policy))
    ensures
      var entry := Entry(AppendRequest(r), policy);
      && (Decide(g, authority, w, entry).Accepted? <==> VerifyStep(g, v, entry).Ok?)
      && (Decide(g, authority, w, entry).Accepted? ==>
            WorldSound(g, Project(w, entry.proposal)) && Matches(Project(w, entry.proposal), VerifyStep(g, v, entry).value))
  {
    hide WorldSound, SessionSound, Rebuild, DecideRequest, RequestFits;
    SoundSession(g, w, r.sessionId);
    if r.sessionId in w.sessions {
      RequestVerifies(g, w, v, r, policy);
      if DecideRequest(g, w.sessions[r.sessionId], Rebuild(g, w.sessions[r.sessionId], HistoryOf(w, r.sessionId)).value, r).Accepted? {
        RequestRebuilds(g, w, r);
      }
    }
  }

  lemma LaterDecides(g: Engine, s: Session, b: Rebuilt, p: Proposal)
    requires Lawful(g) && (p.AppendContribution? || p.AppendTopology?)
    ensures
      (if p.AppendContribution? then DecideContribution(g, s, b, p.contribution, p.usage) else DecideTopology(g, s, b, p.event)).Accepted?
      <==> RebuildStep(g, s, b, RecordOf(p)).Some?
  {}

  lemma LaterVerifies(g: Engine, w: World, v: Expected, p: Proposal, policy: Digest)
    requires Lawful(g) && WorldSound(g, w) && Matches(w, v) && SessionIdOf(p) in w.sessions
    requires p.AppendContribution? || p.AppendTopology?
    ensures
      var id := SessionIdOf(p);
      var s := w.sessions[id];
      var b := Rebuild(g, s, HistoryOf(w, id));
      && b.Some?
      && (RebuildStep(g, s, b.value, RecordOf(p)).Some? ==> id !in w.terminations && WorldSound(g, Project(w, p)))
      && (VerifyLater(g, v, id, RecordOf(p), policy).Ok?
          <==> s.governingPolicy == policy && RebuildStep(g, s, b.value, RecordOf(p)).Some?)
  {
    var id := SessionIdOf(p);
    var s := w.sessions[id];
    assert SessionSound(g, w, id);
    var b := Rebuild(g, s, HistoryOf(w, id)).value;
    RebuildSnoc(g, s, HistoryOf(w, id), RecordOf(p));
    if id in w.terminations {
      TerminatedStops(g, s, b, RecordOf(p));
    } else if RebuildStep(g, s, b, RecordOf(p)).Some? {
      AppendKeepsSound(g, w, p);
    }
  }

  lemma LaterMatches(g: Engine, w: World, v: Expected, p: Proposal, policy: Digest)
    requires Matches(w, v) && SessionIdOf(p) in w.sessions && w.sessions[SessionIdOf(p)].sessionId == SessionIdOf(p)
    requires p.AppendContribution? || p.AppendTopology?
    requires VerifyLater(g, v, SessionIdOf(p), RecordOf(p), policy).Ok?
    ensures Matches(Project(w, p), VerifyLater(g, v, SessionIdOf(p), RecordOf(p), policy).value)
  {
    hide Rebuild, FirstSession;
  }

  lemma LaterDecided(g: Engine, authority: AuthorityCheck, w: World, p: Proposal, policy: Digest)
    requires Lawful(g) && WorldSound(g, w) && SessionIdOf(p) in w.sessions && authority(Entry(p, policy))
    requires p.AppendContribution? || p.AppendTopology?
    requires Rebuild(g, w.sessions[SessionIdOf(p)], HistoryOf(w, SessionIdOf(p))).Some?
    ensures
      var s := w.sessions[SessionIdOf(p)];
      Decide(g, authority, w, Entry(p, policy)).Accepted?
      <==> s.governingPolicy == policy
           && RebuildStep(g, s, Rebuild(g, s, HistoryOf(w, SessionIdOf(p))).value, RecordOf(p)).Some?
  {
    LaterDecides(g, w.sessions[SessionIdOf(p)], Rebuild(g, w.sessions[SessionIdOf(p)], HistoryOf(w, SessionIdOf(p))).value, p);
  }

  /** A contribution or a topology event: the handler's checks are exactly what the extended
      history needs to rebuild; termination is caught by the engine in both. */
  lemma LaterAgrees(g: Engine, authority: AuthorityCheck, w: World, v: Expected, p: Proposal, policy: Digest)
    requires Lawful(g) && WorldSound(g, w) && Matches(w, v) && authority(Entry(p, policy))
    requires p.AppendContribution? || p.AppendTopology?
    ensures Decide(g, authority, w, Entry(p, policy)).Accepted? <==> VerifyLater(g, v, SessionIdOf(p), RecordOf(p), policy).Ok?
    ensures Decide(g, authority, w, Entry(p, policy)).Accepted? ==>
      WorldSound(g, Project(w, p)) && Matches(Project(w, p), VerifyLater(g, v, SessionIdOf(p), RecordOf(p), policy).value)
  {
    if SessionIdOf(p) in w.sessions {
      LaterVerifies(g, w, v, p, policy);
      LaterDecided(g, authority, w, p, policy);
      if VerifyLater(g, v, SessionIdOf(p), RecordOf(p), policy).Ok? {
        LaterMatches(g, w, v, p, policy);
      }
    }
  }

  lemma TerminationDecides(g: Engine, authority: AuthorityCheck, w: World, v: Expected, id: Id, reason: Option<Reason>, policy: Digest)
    requires Matches(w, v) && authority(Entry(RecordTermination(id, reason), policy))
    requires id in w.sessions ==> SessionSound(g, w, id)
    ensures
      var entry := Entry(RecordTermination(id, reason), policy);
      && (Decide(g, authority, w, entry).Accepted? <==> VerifyTermination(g, v, id, reason, policy).Ok? && reason.Some?)
      && (Decide(g, authority, w, entry).Accepted? ==>
            && id in w.sessions && Rebuild(g, w.sessions[id], HistoryOf(w, id)).Some?
            && g.termination(Rebuild(g, w.sessions[id], HistoryOf(w, id)).value.state) == reason)
  {
    hide Rebuild;
    assert FirstSession(v.sessions, id) == if id in w.sessions then Some(w.sessions[id]) else None;
  }

  lemma TerminationKeepsSound(g: Engine, w: World, id: Id, reason: Option<Reason>)
    requires WorldSound(g, w) && id in w.sessions && reason.Some?
    requires Rebuild(g, w.sessions[id], HistoryOf(w, id)).Some?
    requires g.termination(Rebuild(g, w.sessions[id], HistoryOf(w, id)).value.state) == reason
    ensures WorldSound(g, Project(w, RecordTermination(id, reason)))
  {
    hide Rebuild;
    var w' := Project(w, RecordTermination(id, reason));
    forall other | other in w'.sessions
      ensures w'.sessions[other].sessionId == other && SessionSound(g, w', other)
    {
      assert SessionSound(g, w, other);
      assert HistoryOf(w', other) == HistoryOf(w, other);
    }
  }

  lemma TerminationMatches(g: Engine, w: World, v: Expected, id: Id, reason: Option<Reason>, policy: Digest)
    requires Matches(w, v) && VerifyTermination(g, v, id, reason, policy).Ok?
    ensures Matches(Project(w, RecordTermination(id, reason)), VerifyTermination(g, v, id, reason, policy).value)
  {
    hide Rebuild, FirstSession;
  }

  lemma TerminationAgrees(g: Engine, authority: AuthorityCheck, w: World, v: Expected, id: Id, reason: Option<Reason>, policy: Digest)
    requires WorldSound(g, w) && Matches(w, v) && authority(Entry(RecordTermination(id, reason), policy))
    ensures
      var entry := Entry(RecordTermination(id, reason), policy);
      && (Decide(g, authority, w, entry).Accepted? <==> VerifyTermination(g, v, id, reason, policy).Ok? && reason.Some?)
      && (Decide(g, authority, w, entry).Accepted? ==>
            WorldSound(g, Project(w, entry.proposal)) && Matches(Project(w, entry.proposal), VerifyTermination(g, v, id, reason, policy).value))
  {
    SoundSession(g, w, id);
    hide WorldSound, SessionSound, Matches, Rebuild, Decide, VerifyTermination, Project;
    TerminationDecides(g, authority, w, v, id, reason, policy);
    if Decide(g, authority, w, Entry(RecordTermination(id, reason), policy)).Accepted? {
      TerminationKeepsSound(g, w, id, reason);
      TerminationMatches(g, w, v, id, reason, policy);
    }
  }

  lemma SoundSession(g: Engine, w: World, id: Id)
    requires WorldSound(g, w)
    ensures id in w.sessions ==> w.sessions[id].sessionId == id && SessionSound(g, w, id)
    ensures id in w.terminations ==> id in w.sessions
  {}

  lemma CohortAgrees(g: Engine, authority: AuthorityCheck, w: World, v: Expected, cohort: Cohort, policy: Digest)
    requires WorldSound(g, w) && Matches(w, v) && authority(Entry(RecordCohort(cohort), policy))
    ensures
      var entry := Entry(RecordCohort(cohort), policy);
      && (Decide(g, authority, w, entry).Accepted? <==> cohort.planId !in w.cohorts)
      && WorldSound(g, Project(w, entry.proposal)) && Matches(Project(w, entry.proposal), VerifyStep(g, v, entry).value)
  {}

  /** One entry: the handler accepts exactly when the verifier does and the entry obeys the
      rules of the log. */
  lemma StepAgrees(g: Engine, authority: AuthorityCheck, w: World, v: Expected, earlier: seq<Entry>, entry: Entry)
    requires Lawful(g) && WorldSound(g, w) && Matches(w, v)
    requires w.cohorts.Keys == CohortIds(earlier) && w.sessions.Keys == SessionIds(earlier)
    ensures Decide(g, authority, w, entry).Accepted? <==> VerifyStep(g, v, entry).Ok? && EntryRules(authority, earlier, entry)
    ensures Decide(g, authority, w, entry).Accepted? ==>
      WorldSound(g, Project(w, entry.proposal)) && Matches(Project(w, entry.proposal), VerifyStep(g, v, entry).value)
  {
    hide WorldSound, Rebuild, Lawful, ValidSession;
    if authority(entry) {
      match entry.proposal {
        case RecordCohort(cohort) => CohortAgrees(g, authority, w, v, cohort, entry.policy);
        case RecordSession(s) => SessionAgrees(g, authority, w, v, s, entry.policy);
        case AppendRequest(r) => RequestAgrees(g, authority, w, v, r, entry.policy);
        case AppendContribution(_, _) => LaterAgrees(g, authority, w, v, entry.proposal, entry.policy);
        case AppendTopology(_) => LaterAgrees(g, authority, w, v, entry.proposal, entry.policy);
        case RecordTermination(id, reason) => TerminationAgrees(g, authority, w, v, id, reason, entry.policy);
      }
    }
  }

  lemma IdsSnoc(log: seq<Entry>, entry: Entry)
    ensures CohortIds(log + [entry]) == CohortIds(log) + (if entry.proposal.RecordCohort? then {entry.proposal.cohort.planId} else {})
    ensures SessionIds(log + [entry]) == SessionIds(log) + (if entry.proposal.RecordSession? then {entry.proposal.session.sessionId} else {})
  {}

  lemma OnlineSnoc(g: Engine, authority: AuthorityCheck, log: seq<Entry>, entry: Entry)
    ensures Online(g, authority, log + [entry])
         == if Online(g, authority, log).None? || !Decide(g, authority, Online(g, authority, log).value, entry).Accepted?
            then None else Some(Project(Online(g, authority, log).value, entry.proposal))
    ensures LogRules(authority, log + [entry]) <==> LogRules(authority, log) && EntryRules(authority, log, entry)
  {}

  lemma ProjectIds(w: World, p: Proposal)
    ensures Project(w, p).cohorts.Keys == w.cohorts.Keys + (if p.RecordCohort? then {p.cohort.planId} else {})
    ensures Project(w, p).sessions.Keys == w.sessions.Keys + (if p.RecordSession? then {p.session.sessionId} else {})
  {}

  /** Both acceptors are in step after a log they both accepted. */
  ghost predicate InStep(g: Engine, log: seq<Entry>, w: World, v: Expected)
  {
    WorldSound(g, w) && Matches(w, v) && w.cohorts.Keys == CohortIds(log) && w.sessions.Keys == SessionIds(log)
  }

  lemma StepInStep(g: Engine, authority: AuthorityCheck, w: World, v: Expected, log: seq<Entry>, entry: Entry)
    requires Lawful(g) && InStep(g, log, w, v)
    ensures Decide(g, authority, w, entry).Accepted? <==> VerifyStep(g, v, entry).Ok? && EntryRules(authority, log, entry)
    ensures Decide(g, authority, w, entry).Accepted? ==>
      InStep(g, log + [entry], Project(w, entry.proposal), VerifyStep(g, v, entry).value)
  {
    StepAgrees(g, authority, w, v, log, entry);
    IdsSnoc(log, entry);
    ProjectIds(w, entry.proposal);
  }

  /** The handlers accept a whole log exactly when the verifier does and the log obeys its own
      rules. In particular every history the handlers built replays without error. */
  lemma {:induction false} AcceptorsAgree(g: Engine, authority: AuthorityCheck, log: seq<Entry>)
    requires Lawful(g)
    ensures Online(g, authority, log).Some? <==> Offline(g, log).Ok? && LogRules(authority, log)
    ensures Online(g, authority, log).Some? ==> InStep(g, log, Online(g, authority, log).value, Offline(g, log).value)
  {
    if log != [] {
      var front, last := log[..|log| - 1], log[|log| - 1];
      AcceptorsAgree(g, authority, front);
      assert front + [last] == log;
      OnlineSnoc(g, authority, front, last);
      OfflineSnoc(g, front, last);
      if Online(g, authority, front).Some? {
        StepInStep(g, authority, Online(g, authority, front).value, Offline(g, front).value, front, last);
      }
    }
  }

  lemma TerminatedRefuses(g: Engine, authority: AuthorityCheck, w: World, entry: Entry, id: Id)
    requires Lawful(g) && id in w.sessions && SessionSound(g, w, id) && id in w.terminations
    requires SessionIdOf(entry.proposal) == id && !entry.proposal.RecordCohort? && !entry.proposal.RecordSession?
    ensures !Decide(g, authority, w, entry).Accepted?
  {
    hide Rebuild;
  }

  lemma StepKeepsTerminated(g: Engine, authority: AuthorityCheck, w: World, entry: Entry, id: Id)
    requires Lawful(g) && WorldSound(g, w) && id in w.terminations && Decide(g, authority, w, entry).Accepted?
    ensures
      var w' := Project(w, entry.proposal);
      id in w'.terminations && w'.terminations[id] == w.terminations[id] && HistoryOf(w', id) == HistoryOf(w, id)
  {
    hide WorldSound, SessionSound, Lawful, Decide;
    SoundSession(g, w, id);
    var p := entry.proposal;
    if SessionIdOf(p) == id && !p.RecordCohort? && !p.RecordSession? {
      TerminatedRefuses(g, authority, w, entry, id);
    }
  }

  /** Once a termination is recorded, nothing the handlers accept later extends the session's
      history or changes the recorded reason. */
  lemma {:induction false} TerminationFreezesHistory(g: Engine, authority: AuthorityCheck, log: seq<Entry>, more: seq<Entry>, id: Id)
    requires Lawful(g) && Online(g, authority, log + more).Some?
    requires Online(g, authority, log).Some? && id in Online(g, authority, log).value.terminations
    ensures
      var w, w' := Online(g, authority, log).value, Online(g, authority, log + more).value;
      id in w'.terminations && w'.terminations[id] == w.terminations[id] && HistoryOf(w', id) == HistoryOf(w, id)
  {
    if more == [] {
      assert log + more == log;
    } else {
      var front, last := log + more[..|more| - 1], more[|more| - 1];
      assert (log + more)[..|log + more| - 1] == front;
      TerminationFreezesHistory(g, authority, log, more[..|more| - 1], id);
      AcceptorsAgree(g, authority, front);
      StepKeepsTerminated(g, authority, Online(g, authority, front).value, last, id);
    }
  }

  /** The verifier's final pass over all sessions never fails after an accepted run. */
  lemma FinalPassSucceeds(g: Engine, authority: AuthorityCheck, log: seq<Entry>)
    requires Lawful(g) && Online(g, authority, log).Some?
    ensures Offline(g, log).Ok? && AllRebuild(g, Offline(g, log).value)
  {
    AcceptorsAgree(g, authority, log);
    var w, v := Online(g, authority, log).value, Offline(g, log).value;
    forall s | s in v.sessions
      ensures Rebuild(g, s, Recorded(v, s.sessionId)).Some?
    {
      assert SessionSound(g, w, s.sessionId);
    }
  }

  /** A history only the verifier accepts: it takes a termination that names no reason while the
      session can still go on, which the handler refuses. */
  lemma VerifierAcceptsEmptyTermination(g: Engine, authority: AuthorityCheck, s: Session)
    requires Lawful(g) && ValidSession(s) && g.termination(g.initial(s)).None?
    ensures
      var log := [Entry(RecordCohort(s.cohort), s.governingPolicy)] + [Entry(RecordSession(s), s.governingPolicy)]
                 + [Entry(RecordTermination(s.sessionId, None), s.governingPolicy)];
      Offline(g, log).Ok? && Online(g, authority, log).None?
  {
    var p := s.governingPolicy;
    var first, second, third := Entry(RecordCohort(s.cohort), p), Entry(RecordSession(s), p), Entry(RecordTermination(s.sessionId, None), p);
    OfflineSnoc(g, [], first);
    assert [] + [first] == [first];
    OfflineSnoc(g, [first], second);
    OfflineSnoc(g, [first] + [second], third);
    FirstSessionSnoc([], s, s.sessionId);
    assert [] + [s] == [s];
    AcceptorsAgree(g, authority, [first] + [second] + [third]);
    OnlineSnoc(g, authority, [first] + [second], third);
  }

  // ---- with the real engine ----

  lemma StepValidates(h: Hashing, s: Session, b: Rebuilt, record: Record)
    requires ValidSession(s) && Validates(h, b.state) && b.state.session == s && RebuildStep(EngineOf(h), s, b, record).Some?
    ensures
      var next := RebuildStep(EngineOf(h), s, b, record).value;
      Validates(h, next.state) && next.state.session == s
  {
    hide ValidSession, Validates, Advance, ApplyTopology, ExchangeChecks, TopologyChecks;
    match record {
      case Asked(_) =>
      case Answered(c, usage) =>
        AdvanceExactly(h, b.state, b.pending.value, c, usage);
        AdvanceKeepsSession(h, s, b.state, b.pending.value, c, usage);
      case Reshaped(e) =>
        ApplyTopologyExactly(h, b.state, e);
        ReshapeKeepsSession(h, s, b.state, e);
    }
  }

  lemma AdvanceKeepsSession(h: Hashing, s: Session, st: State, r: Request, c: Contribution, usage: Resources)
    requires st.session == s
    ensures Advance(h, s, st, r, c, usage).Ok? ==> Advance(h, s, st, r, c, usage).value.session == s
  {
    hide Validates, ExchangeChecks;
  }

  lemma ReshapeKeepsSession(h: Hashing, s: Session, st: State, e: TopologyEvent)
    requires st.session == s
    ensures ApplyTopology(h, s, st, e).Ok? ==> ApplyTopology(h, s, st, e).value.session == s
  {
    hide Validates, TopologyChecks;
  }

  /** A session with a valid envelope only ever rebuilds to states the batch validator accepts. */
  lemma {:induction false} RebuildValidates(h: Hashing, s: Session, history: seq<Record>)
    requires ValidSession(s) && Rebuild(EngineOf(h), s, history).Some?
    ensures Validates(h, Rebuild(EngineOf(h), s, history).value.state) && Rebuild(EngineOf(h), s, history).value.state.session == s
  {
    hide ValidSession, Validates, RebuildStep;
    if history == [] {
      InitialValidates(h, s);
    } else {
      var front, last := history[..|history| - 1], history[|history| - 1];
      RebuildValidates(h, s, front);
      StepValidates(h, s, Rebuild(EngineOf(h), s, front).value, last);
    }
  }

  ghost predicate SessionsValid(w: World)
  {
    forall id :: id in w.sessions ==> ValidSession(w.sessions[id])
  }

  /** The handlers only ever record sessions with a valid envelope. */
  lemma {:induction false} OnlineSessionsValid(g: Engine, authority: AuthorityCheck, log: seq<Entry>)
    ensures Online(g, authority, log).Some? ==> SessionsValid(Online(g, authority, log).value)
  {
    hide ValidSession, Rebuild;
    if log != [] {
      OnlineSessionsValid(g, authority, log[..|log| - 1]);
    }
  }

  /** Every stored session of a world rebuilds from its stored history to a state that the batch
      validator accepts. */
  ghost predicate AllValidate(h: Hashing, w: World)
  {
    forall id :: id in w.sessions ==>
      var rebuilt := Rebuild(EngineOf(h), w.sessions[id], HistoryOf(w, id));
      rebuilt.Some? && Validates(h, rebuilt.value.state) && rebuilt.value.state.session == w.sessions[id]
  }

  lemma WorldValidates(h: Hashing, w: World)
    requires WorldSound(EngineOf(h), w) && SessionsValid(w)
    ensures AllValidate(h, w)
  {
    hide ValidSession, Validates, Rebuild;
    forall id | id in w.sessions
      ensures Rebuild(EngineOf(h), w.sessions[id], HistoryOf(w, id)).Some?
      ensures
        var state := Rebuild(EngineOf(h), w.sessions[id], HistoryOf(w, id)).value.state;
        Validates(h, state) && state.session == w.sessions[id]
    {
      SoundSession(EngineOf(h), w, id);
      RebuildValidates(h, w.sessions[id], HistoryOf(w, id));
    }
  }

  /** The same for the real engine: every log the handlers wrote passes the verifier and its final
      pass, and every stored session is in a state the batch validator accepts. */
  lemma OnlineHistoriesVerify(h: Hashing, authority: AuthorityCheck, log: seq<Entry>)
    requires Online(EngineOf(h), authority, log).Some?
    ensures Offline(EngineOf(h), log).Ok? && AllRebuild(EngineOf(h), Offline(EngineOf(h), log).value)
    ensures AllValidate(h, Online(EngineOf(h), authority, log).value)
    ensures Offline(EngineOf(h), log).value.sessionsById == Online(EngineOf(h), authority, log).value.sessions
    ensures Offline(EngineOf(h), log).value.history == Online(EngineOf(h), authority, log).value.history
  {
    hide Online, Offline, AllRebuild, AllValidate, SessionsValid, WorldSound, Lawful;
    EngineIsLawful(h);
    AcceptorsAgree(EngineOf(h), authority, log);
    FinalPassSucceeds(EngineOf(h), authority, log);
    OnlineSessionsValid(EngineOf(h), authority, log);
    WorldValidates(h, Online(EngineOf(h), authority, log).value);
  }
}
