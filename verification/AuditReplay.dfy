/** The replay of the whole audit log into every modelled projection, and its comparison with the
    stored tables. */
module AuditReplay {
  import opened Common
  import opened ReplayTables
  import opened AuditLog
  import opened PolicyReplay
  import opened ProgressReplay
  import opened TrailReplay
  import opened EvaluatorReplay
  import opened HarnessReplay

  datatype Content =
    | EvidenceAdded(evidence: Evidence)
    | ClaimProposed(claim: Claim)
    | ClaimTransitioned(nextClaim: Claim)
    | RunCreated(run: Run)
    | RunEventAppended(runEvent: RunEvent)
    | PlanRecorded(plan: Plan)
    | ProgressEventAppended(event: ProgressEvent)
    | TrailVersionRecorded(version: TrailVersion, rows: seq<(RowKind, TrailRow)>)
    | AuditRecorded(audit: EvaluatorAudit)
    | MeasurementRecorded(measurement: Measurement)
    | EvaluatorProposed(evaluator: EvaluatorVersion)
    | SuccessionDecided(succession: Succession)
    | HarnessStep(harness: HarnessProposal)
    | PolicyTransitioned(transition: Transition, newRun: Run, newAudit: EvaluatorAudit, newMeasurement: Measurement)
    | OutsideSlice(body: string)

  type Entry = AuditRecord<Content>

  /** The replay state: every `expected_*` dictionary and loop variable. */
  datatype Expected = Expected(
    trails: Trails, progress: Progress, evaluators: Evaluators, harness: Harness, transitions: seq<(Transition, Digest)>)

  const NOTHING_REPLAYED := Expected(NO_TRAILS, NO_PROGRESS, NO_EVALUATORS, NO_HARNESS, [])

  /** Record builders: the hash-verified form of evidence, and the canonical campaign and policy
      hashes. */
  datatype Builders = Builders(verified: Evidence -> Evidence, campaignHash: CampaignHash, policyHash: PolicyHash)

  function WithTrails(s: Expected, t: Result<Trails>): Result<Expected>
  {
    if t.Raised? then Raised else Ok(s.(trails := t.value))
  }

  function WithProgress(s: Expected, p: Result<Progress>): Result<Expected>
  {
    if p.Raised? then Raised else Ok(s.(progress := p.value))
  }

  function WithEvaluators(s: Expected, e: Result<Evaluators>): Result<Expected>
  {
    if e.Raised? then Raised else Ok(s.(evaluators := e.value))
  }

  function WithHarness(s: Expected, h: Result<Harness>): Result<Expected>
  {
    if h.Raised? then Raised else Ok(s.(harness := h.value))
  }

  /** An accepted transition also projects the run, audit and measurement it carries. */
  function ApplyTransition(s: Expected, governing: Digest, t: Transition, run: Run, audit: EvaluatorAudit, m: Measurement): Result<Expected>
  {
    if governing != t.prior then Raised
    else
      var progress := AddRun(s.progress, t.prior, run);
      var audited := AddAudit(s.evaluators, t.prior, audit);
      if progress.Raised? || audited.Raised? then Raised
      else
        var measured := AddMeasurement(audited.value, progress.value.runs, t.prior, m);
        if measured.Raised? then Raised
        else Ok(s.(progress := progress.value, evaluators := measured.value, transitions := s.transitions + [(t, governing)]))
  }

  function Apply(b: Builders, s: Expected, governing: Digest, c: Content): Result<Expected>
  {
    match c
    case EvidenceAdded(e) => WithTrails(s, AddEvidence(s.trails, b.verified(e)))
    case ClaimProposed(claim) => WithTrails(s, AddClaim(s.trails, claim))
    case ClaimTransitioned(claim) => WithTrails(s, AddClaim(s.trails, claim))
    case RunCreated(run) => WithProgress(s, AddRun(s.progress, governing, run))
    case RunEventAppended(e) => WithProgress(s, AddRunEvent(s.progress, governing, e))
    case PlanRecorded(plan) => WithProgress(s, AddPlan(s.progress, governing, plan))
    case ProgressEventAppended(e) => WithProgress(s, AddProgressEvent(s.progress, governing, e))
    case TrailVersionRecorded(v, rows) => WithTrails(s, AddVersion(s.trails, governing, v, rows))
    case AuditRecorded(audit) => WithEvaluators(s, AddAudit(s.evaluators, governing, audit))
    case MeasurementRecorded(m) => WithEvaluators(s, AddMeasurement(s.evaluators, s.progress.runs, governing, m))
    case EvaluatorProposed(v) => WithEvaluators(s, AddEvaluator(s.evaluators, governing, v))
    case SuccessionDecided(d) => WithEvaluators(s, AddSuccession(s.evaluators, governing, d))
    case HarnessStep(p) => WithHarness(s, ApplyHarness(b.campaignHash, s.harness, governing, p))
    case PolicyTransitioned(t, run, audit, m) => ApplyTransition(s, governing, t, run, audit, m)
    case OutsideSlice(_) => Ok(s)
  }

  /** The checks that are not modelled (trail semantics, receipts, authority, plan shape, and the
      families outside the slice) are an arbitrary verdict on each record. */
  type Verdict = nat -> bool

  function Step(b: Builders, passes: Verdict): (Expected, Entry) -> Result<Expected>
  {
    (s: Expected, r: Entry) =>
      if !TakesEffect(r) then Ok(s)
      else if !passes(r.sequence) then Raised
      else Apply(b, s, r.governing, r.proposal.content)
  }

  function Replay(b: Builders, passes: Verdict, records: seq<Entry>): Result<Expected>
  {
    Fold(Step(b, passes), NOTHING_REPLAYED, records)
  }

  // ---- the stored tables ----

  datatype Tables = Tables(
    trails: Trails, progress: Progress, audits: map<Id, EvaluatorAudit>, measurements: map<Id, Measurement>,
    versions: map<Id, EvaluatorVersion>, successions: map<Id, Succession>, evaluatorHead: Option<Id>,
    harness: Harness, policies: seq<Policy>, active: Option<Policy>)

  predicate SameTables(s: Expected, t: Tables)
  {
    && t.trails == s.trails && t.progress == s.progress && t.harness == s.harness
    && t.audits == s.evaluators.audits && t.measurements == s.evaluators.measurements
    && t.versions == s.evaluators.versions && t.successions == s.evaluators.successions
  }

  predicate Agrees(s: Expected, t: Tables)
  {
    SameTables(s, t) && HeadAllowed(s.evaluators, t.evaluatorHead) && ProjectionSequence(t.policies, t.active, s.transitions)
  }

  function PolicyView(r: Entry): PolicyEvent
  {
    PolicyEvent(r.governing,
      if TakesEffect(r) && r.proposal.content.PolicyTransitioned? then Some(r.proposal.content.transition) else None)
  }

  function PolicyViews(records: seq<Entry>): seq<PolicyEvent>
  {
    seq(|records|, i requires 0 <= i < |records| => PolicyView(records[i]))
  }

  /** `_require_projection_consistency`, on the modelled families; stored policies are decoded when
      they are read. */
  predicate Verified(b: Builders, passes: Verdict, records: seq<Entry>, t: Tables)
  {
    && AllDecode(b.policyHash, t.policies, t.active)
    && HistoricalSequence(PolicyViews(records), RowMap(PolicyRows(t.policies)), t.active)
    && Replay(b, passes, records).Ok?
    && Agrees(Replay(b, passes, records).value, t)
  }

  // ---- every successful replay is sound ----

  ghost predicate ExpectedSound(s: Expected)
  {
    && TrailsSound(s.trails) && ProgressSound(s.progress) && EvaluatorsSound(s.evaluators, s.progress.runs) && HarnessSound(s.harness)
  }

  lemma MoreRunsKeepSound<V>(e: Evaluators, runs: map<Id, V>, more: map<Id, V>)
    requires EvaluatorsSound(e, runs) && runs.Keys <= more.Keys
    ensures EvaluatorsSound(e, more)
  {}

  lemma TransitionKeepsSound(s: Expected, governing: Digest, t: Transition, run: Run, audit: EvaluatorAudit, m: Measurement)
    requires ExpectedSound(s) && ApplyTransition(s, governing, t, run, audit, m).Ok?
    ensures ExpectedSound(ApplyTransition(s, governing, t, run, audit, m).value)
  {
    hide TrailsSound, ProgressSound, EvaluatorsSound, HarnessSound, AddAudit, AddMeasurement;
    var progress := AddRun(s.progress, t.prior, run).value;
    var audited := AddAudit(s.evaluators, t.prior, audit).value;
    RunKeepsSound(s.progress, t.prior, run);
    AuditKeepsSound(s.evaluators, s.progress.runs, t.prior, audit);
    MoreRunsKeepSound(audited, s.progress.runs, progress.runs);
    MeasurementKeepsSound(audited, progress.runs, t.prior, m);
  }

  lemma RunsOnlyGrow(b: Builders, s: Expected, governing: Digest, c: Content)
    requires Apply(b, s, governing, c).Ok?
    ensures s.progress.runs.Keys <= Apply(b, s, governing, c).value.progress.runs.Keys
  {}

  lemma ApplyKeepsSound(b: Builders, s: Expected, governing: Digest, c: Content)
    requires ExpectedSound(s) && Apply(b, s, governing, c).Ok?
    ensures ExpectedSound(Apply(b, s, governing, c).value)
  {
    hide TrailsSound, ProgressSound, EvaluatorsSound, HarnessSound;
    hide AddEvidence, AddClaim, AddVersion, AddRun, AddRunEvent, AddPlan, AddProgressEvent;
    hide AddAudit, AddMeasurement, AddEvaluator, AddSuccession, ApplyHarness, ApplyTransition;
    RunsOnlyGrow(b, s, governing, c);
    var after, runs := Apply(b, s, governing, c).value, s.progress.runs;
    match c {
      case EvidenceAdded(e) => EvidenceKeepsSound(s.trails, b.verified(e));
      case ClaimProposed(claim) => ClaimKeepsSound(s.trails, claim);
      case ClaimTransitioned(claim) => ClaimKeepsSound(s.trails, claim);
      case RunCreated(run) => RunKeepsSound(s.progress, governing, run); MoreRunsKeepSound(s.evaluators, runs, after.progress.runs);
      case RunEventAppended(e) => RunEventKeepsSound(s.progress, governing, e); MoreRunsKeepSound(s.evaluators, runs, after.progress.runs);
      case PlanRecorded(plan) => PlanKeepsSound(s.progress, governing, plan); MoreRunsKeepSound(s.evaluators, runs, after.progress.runs);
      case ProgressEventAppended(e) => EventKeepsSound(s.progress, governing, e); MoreRunsKeepSound(s.evaluators, runs, after.progress.runs);
      case TrailVersionRecorded(v, rows) => VersionKeepsSound(s.trails, governing, v, rows);
      case AuditRecorded(audit) => AuditKeepsSound(s.evaluators, runs, governing, audit);
      case MeasurementRecorded(m) => MeasurementKeepsSound(s.evaluators, runs, governing, m);
      case EvaluatorProposed(v) => EvaluatorKeepsSound(s.evaluators, runs, governing, v);
      case SuccessionDecided(d) => SuccessionKeepsSound(s.evaluators, runs, governing, d);
      case HarnessStep(p) => HarnessKeepsSound(b.campaignHash, s.harness, governing, p);
      case PolicyTransitioned(t, run, audit, m) => TransitionKeepsSound(s, governing, t, run, audit, m);
      case OutsideSlice(_) =>
    }
  }

  /** Whatever the log says, a replay that succeeds ends in sound tables. */
  lemma {:induction false} ReplayIsSound(b: Builders, passes: Verdict, records: seq<Entry>)
    requires Replay(b, passes, records).Ok?
    ensures ExpectedSound(Replay(b, passes, records).value)
  {
    hide ExpectedSound, Apply;
    if records == [] {
      NothingReplayedIsSound();
    } else {
      var front, r := records[..|records| - 1], records[|records| - 1];
      FoldPrefix(Step(b, passes), NOTHING_REPLAYED, records, |records| - 1);
      ReplayIsSound(b, passes, front);
      if TakesEffect(r) {
        ApplyKeepsSound(b, Replay(b, passes, front).value, r.governing, r.proposal.content);
      }
    }
  }

  lemma NothingReplayedIsSound()
    ensures ExpectedSound(NOTHING_REPLAYED)
  {}

  // ---- the log determines the tables ----

  /** Two replays of the same log agree, however the unmodelled checks were decided. */
  lemma {:induction false} ReplayForgetsVerdicts(b: Builders, p: Verdict, q: Verdict, records: seq<Entry>)
    requires Replay(b, p, records).Ok? && Replay(b, q, records).Ok?
    ensures Replay(b, p, records) == Replay(b, q, records)
  {
    hide Apply;
    if records != [] {
      var n := |records| - 1;
      FoldPrefix(Step(b, p), NOTHING_REPLAYED, records, n);
      FoldPrefix(Step(b, q), NOTHING_REPLAYED, records, n);
      ReplayForgetsVerdicts(b, p, q, records[..n]);
    }
  }

  lemma {:induction false} TransitionsAreTheViews(b: Builders, passes: Verdict, records: seq<Entry>)
    requires Replay(b, passes, records).Ok?
    ensures Replay(b, passes, records).value.transitions == TransitionsOf(PolicyViews(records))
  {
    if records != [] {
      var front, r := records[..|records| - 1], records[|records| - 1];
      FoldPrefix(Step(b, passes), NOTHING_REPLAYED, records, |records| - 1);
      TransitionsAreTheViews(b, passes, front);
      assert PolicyViews(records)[..|records| - 1] == PolicyViews(front);
      if TakesEffect(r) {
        AppliedTransitions(b, Replay(b, passes, front).value, r.governing, r.proposal.content);
      }
    }
  }

  lemma AppliedTransitions(b: Builders, s: Expected, governing: Digest, c: Content)
    requires Apply(b, s, governing, c).Ok?
    ensures Apply(b, s, governing, c).value.transitions
         == s.transitions + (if c.PolicyTransitioned? then [(c.transition, governing)] else [])
  {}

  /** The verified tables of a log are exactly these: the replayed projections, an evaluator head
      the replay allows, and policies and an active pointer that both policy replays accept. */
  lemma VerifiedTablesExactly(b: Builders, passes: Verdict, records: seq<Entry>, t: Tables)
    requires Replay(b, passes, records).Ok?
    ensures
      var s := Replay(b, passes, records).value;
      Verified(b, passes, records, t) <==>
        && AllDecode(b.policyHash, t.policies, t.active)
        && SameTables(s, t) && HeadAllowed(s.evaluators, t.evaluatorHead)
        && HistoricalSequence(PolicyViews(records), RowMap(PolicyRows(t.policies)), t.active)
        && ProjectionSequence(t.policies, t.active, TransitionsOf(PolicyViews(records)))
  {
    TransitionsAreTheViews(b, passes, records);
  }

  predicate SameProjections(t: Tables, u: Tables)
  {
    && t.trails == u.trails && t.progress == u.progress && t.harness == u.harness && t.audits == u.audits
    && t.measurements == u.measurements && t.versions == u.versions && t.successions == u.successions
  }

  predicate SomeSuccession(records: seq<Entry>)
  {
    exists i :: 0 <= i < |records| && SucceedsAt(records, i)
  }

  predicate SucceedsAt(records: seq<Entry>, i: nat)
    requires i < |records|
  {
    TakesEffect(records[i]) && records[i].proposal.content.SuccessionDecided? && records[i].proposal.content.succession.accepted
  }

  lemma AppliedSuccession(b: Builders, s: Expected, governing: Digest, c: Content)
    requires Apply(b, s, governing, c).Ok?
    ensures Apply(b, s, governing, c).value.evaluators.succeeded
       <==> s.evaluators.succeeded || (c.SuccessionDecided? && c.succession.accepted)
  {}

  lemma {:induction false} SucceededExactly(b: Builders, passes: Verdict, records: seq<Entry>)
    requires Replay(b, passes, records).Ok?
    ensures Replay(b, passes, records).value.evaluators.succeeded <==> SomeSuccession(records)
  {
    hide Apply;
    if records != [] {
      var n := |records| - 1;
      var front, r := records[..n], records[n];
      FoldPrefix(Step(b, passes), NOTHING_REPLAYED, records, n);
      SucceededExactly(b, passes, front);
      if TakesEffect(r) {
        AppliedSuccession(b, Replay(b, passes, front).value, r.governing, r.proposal.content);
      }
      SuccessionSnoc(records);
    }
  }

  lemma SuccessionSnoc(records: seq<Entry>)
    requires records != []
    ensures SomeSuccession(records) <==> SomeSuccession(records[..|records| - 1]) || SucceedsAt(records, |records| - 1)
  {
    var n := |records| - 1;
    if SomeSuccession(records[..n]) {
      var i :| 0 <= i < n && SucceedsAt(records[..n], i);
      assert SucceedsAt(records, i);
    }
    if SomeSuccession(records) && !SucceedsAt(records, n) {
      var i :| 0 <= i < |records| && SucceedsAt(records, i);
      assert SucceedsAt(records[..n], i);
    }
  }

  /** Two workspaces with the same audit log that both verify have the same projections and heads.
      The evaluator head is left open only as long as no succession was accepted, and then it is
      missing or the unique root. */
  lemma LogDeterminesTables(b: Builders, p: Verdict, q: Verdict, records: seq<Entry>, t: Tables, u: Tables)
    requires Verified(b, p, records, t) && Verified(b, q, records, u)
    ensures SameProjections(t, u)
    ensures if SomeSuccession(records) then t.evaluatorHead == u.evaluatorHead else BaselineHead(t.versions, t.evaluatorHead) && BaselineHead(t.versions, u.evaluatorHead)
  {
    hide Replay, HistoricalSequence, ProjectionSequence, SomeSuccession;
    ReplayForgetsVerdicts(b, p, q, records);
    SucceededExactly(b, p, records);
  }

  predicate BaselineHead(versions: map<Id, EvaluatorVersion>, head: Option<Id>)
  {
    head.None? || Roots(versions) == {head.value}
  }

  /** The policy side of the same, when no two policies share a hash: any log fixes the active
      policy, and a log with a transition fixes the whole registry. */
  lemma LogDeterminesRegistry(b: Builders, p: Verdict, q: Verdict, records: seq<Entry>, t: Tables, u: Tables)
    requires CollisionFree(b.policyHash)
    requires records != [] && Verified(b, p, records, t) && Verified(b, q, records, u)
    ensures t.active.Some? && t.active == u.active
    ensures TransitionsOf(PolicyViews(records)) != [] ==> RowMap(PolicyRows(t.policies)) == RowMap(PolicyRows(u.policies))
  {
    hide Replay, HistoricalSequence, ProjectionSequence, TransitionsOf, RowMap, PolicyRows, AllGovern, ActiveBefore;
    var events := PolicyViews(records);
    TransitionsAreTheViews(b, p, records);
    TransitionsAreTheViews(b, q, records);
    HistoricalExactly(events, RowMap(PolicyRows(t.policies)), t.active);
    HistoricalExactly(events, RowMap(PolicyRows(u.policies)), u.active);
    if TransitionsOf(events) != [] {
      LogDeterminesPolicies(b.policyHash, events, t.policies, t.active, u.policies, u.active);
    }
  }

  /** The open evaluator head is really open: before any succession, a unique root may be the head
      or not. */
  lemma BaselineHeadIsOpen(b: Builders, passes: Verdict, records: seq<Entry>, t: Tables, root: Id)
    requires Verified(b, passes, records, t) && !SomeSuccession(records) && Roots(t.versions) == {root}
    ensures Verified(b, passes, records, t.(evaluatorHead := None)) && Verified(b, passes, records, t.(evaluatorHead := Some(root)))
  {
    hide Replay, HistoricalSequence, ProjectionSequence, SomeSuccession;
    SucceededExactly(b, passes, records);
  }

  /** So is the registry: without a transition, any further policy may be registered. */
  lemma RegistryIsOpen(b: Builders, passes: Verdict, records: seq<Entry>, t: Tables, extra: Policy)
    requires Verified(b, passes, records, t) && TransitionsOf(PolicyViews(records)) == [] && t.active.Some?
    requires Decodes(b.policyHash, extra) && forall i :: 0 <= i < |t.policies| ==> t.policies[i].hash != extra.hash
    ensures Verified(b, passes, records, t.(policies := t.policies + [extra]))
  {
    hide Replay, HistoricalSequence, ProjectionSequence, TransitionsOf;
    TransitionsAreTheViews(b, passes, records);
    MorePoliciesPass(PolicyViews(records), t.policies, t.active, extra);
  }

  lemma MorePoliciesPass(events: seq<PolicyEvent>, registered: seq<Policy>, active: Option<Policy>, extra: Policy)
    requires HistoricalSequence(events, RowMap(PolicyRows(registered)), active) && ProjectionSequence(registered, active, [])
    requires TransitionsOf(events) == [] && active.Some?
    requires forall i :: 0 <= i < |registered| ==> registered[i].hash != extra.hash
    ensures HistoricalSequence(events, RowMap(PolicyRows(registered + [extra])), active)
    ensures ProjectionSequence(registered + [extra], active, [])
  {
    var longer, rows := registered + [extra], PolicyRows(registered);
    assert PolicyRows(longer) == rows + [(extra.hash, extra)];
    RowMapKeys(rows);
    assert extra.hash !in RowMap(rows);
    RegistryIs(registered);
    RegistryIs(longer);
    assert DistinctHashes(longer);
    assert RowMap(PolicyRows(longer)) == RowMap(rows)[extra.hash := extra];
    if events != [] {
      HistoricalExactly(events, RowMap(rows), active);
      HistoricalExactly(events, RowMap(PolicyRows(longer)), active);
      GovernsWithMore(events, RowMap(rows), RowMap(PolicyRows(longer)));
    }
  }

  lemma GovernsWithMore(events: seq<PolicyEvent>, policies: Registry, more: Registry)
    requires AllGovern(events, policies, |events|) && forall hash :: hash in policies ==> hash in more && more[hash] == policies[hash]
    ensures AllGovern(events, more, |events|)
  {
    forall i | 0 <= i < |events|
      ensures Governs(events, more, i)
    {
      assert Governs(events, policies, i);
    }
  }
}
