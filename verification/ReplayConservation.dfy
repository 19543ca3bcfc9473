/** Every replayed dictionary holds exactly the rows of the log's accepted records, each key once,
    and every head is the last one the log set. */
module ReplayConservation {
  import opened Common
  import opened ReplayTables
  import opened AuditLog
  import opened PolicyReplay
  import opened ProgressReplay
  import opened TrailReplay
  import opened EvaluatorReplay
  import opened HarnessReplay
  import opened AuditReplay

  /** Rows for each dictionary, and the heads set, in order. */
  datatype Added = Added(
    evidence: seq<(Id, Evidence)>, claims: seq<(ClaimKey, Claim)>, trailVersions: seq<(Id, TrailVersion)>, rows: seq<((RowKind, Id), TrailRow)>,
    runs: seq<(Id, Run)>, runEvents: seq<(Id, RunEvent)>, plans: seq<(Id, Plan)>, subtasks: seq<(Id, Subtask)>, events: seq<(Id, ProgressEvent)>,
    audits: seq<(Id, EvaluatorAudit)>, measurements: seq<(Id, Measurement)>, evaluators: seq<(Id, EvaluatorVersion)>, successions: seq<(Id, Succession)>,
    campaigns: seq<(Id, CampaignRow)>, partitions: seq<(Id, Manifest)>, budgets: seq<(Id, BudgetRow)>, observations: seq<(Id, Observation)>, metrics: seq<(Id, Metric)>,
    confounds: seq<(Id, Confound)>, decisions: seq<(Id, DecisionRow)>,
    trailHeads: seq<(Id, (Id, nat))>, runHeads: seq<(Id, Id)>, progressHeads: seq<(Id, (Id, Id))>, harnessHeads: seq<(Id, (Id, string))>)

  const NOTHING_ADDED := Added([], [], [], [], [], [], [], [], [], [], [], [], [], [], [], [], [], [], [], [], [], [], [], [])

  function SubtaskRows(plan: Plan): seq<(Id, Subtask)>
  {
    seq(|plan.subtasks|, i requires 0 <= i < |plan.subtasks| => (plan.subtasks[i].id, plan.subtasks[i]))
  }

  function ManifestRows(c: Campaign): seq<(Id, Manifest)>
  {
    seq(|c.partitions|, i requires 0 <= i < |c.partitions| => (c.partitions[i].id, c.partitions[i]))
  }

  /** An iteration names its manifest; the row also names the manifest's campaign. */
  function ObservationOf(manifests: map<Id, Manifest>, it: Iteration, governing: Digest): Observation
  {
    var campaignId := if it.manifestId in manifests then manifests[it.manifestId].campaignId else "";
    Observation(it.observationId, campaignId, it.manifestId, it.taskId, it.variant, it.budgetId, it.outputHash, it.resultId, it.outcome, governing,
                it.body)
  }

  /** What one accepted record contributes, read off its payload and the manifests before it. */
  function AddedBy(b: Builders, manifests: map<Id, Manifest>, c: Content): Added
  {
    match c
    case EvidenceAdded(e) => NOTHING_ADDED.(evidence := [(b.verified(e).id, b.verified(e))])
    case ClaimProposed(claim) => NOTHING_ADDED.(claims := [(claim.key, claim)])
    case ClaimTransitioned(claim) => NOTHING_ADDED.(claims := [(claim.key, claim)])
    case RunCreated(run) => NOTHING_ADDED.(runs := [(run.id, run)])
    case RunEventAppended(e) => NOTHING_ADDED.(runEvents := [(e.id, e)], runHeads := [(e.runId, e.id)])
    case PlanRecorded(plan) => NOTHING_ADDED.(plans := [(plan.id, plan)], subtasks := SubtaskRows(plan))
    case ProgressEventAppended(e) => NOTHING_ADDED.(events := [(e.id, e)], progressHeads := [(e.runId, (e.planId, e.id))])
    case TrailVersionRecorded(v, rows) =>
      NOTHING_ADDED.(trailVersions := [(v.id, v)], rows := KeyedRows(rows), trailHeads := [(v.trailId, (v.id, v.version))])
    case AuditRecorded(audit) => NOTHING_ADDED.(audits := [(audit.id, audit)])
    case MeasurementRecorded(m) => NOTHING_ADDED.(measurements := [(m.id, m)])
    case EvaluatorProposed(v) => NOTHING_ADDED.(evaluators := [(v.id, v)])
    case SuccessionDecided(d) => NOTHING_ADDED.(successions := [(d.id, d)])
    case HarnessStep(p) => AddedByHarness(b, manifests, p)
    case PolicyTransitioned(t, run, audit, m) =>
      NOTHING_ADDED.(runs := [(run.id, run)], audits := [(audit.id, audit)], measurements := [(m.id, m)])
    case OutsideSlice(_) => NOTHING_ADDED
  }

  function AddedByHarness(b: Builders, manifests: map<Id, Manifest>, p: HarnessProposal): Added
  {
    match p
    case CreateCampaign(c) =>
      NOTHING_ADDED.(campaigns := [(c.id, RowOfCampaign(b.campaignHash, c))], partitions := ManifestRows(c), budgets := BudgetRows(c))
    case RecordIteration(it, named) => NOTHING_ADDED.(observations := [(it.observationId, ObservationOf(manifests, it, named))])
    case RecordProtectedResult(_, _, _, result, _) => NOTHING_ADDED.(metrics := [(result.id, result)])
    case RecordConfound(c) => NOTHING_ADDED.(confounds := [(c.id, c)])
    case DecideCampaign(d, report) =>
      NOTHING_ADDED.(decisions := [(d.id, DecisionRow(d, report.resultIds, report.confoundIds))], harnessHeads := [(d.campaignId, (d.id, d.status))])
  }

  function Join(a: Added, c: Added): Added
  {
    Added(a.evidence + c.evidence, a.claims + c.claims, a.trailVersions + c.trailVersions, a.rows + c.rows,
          a.runs + c.runs, a.runEvents + c.runEvents, a.plans + c.plans, a.subtasks + c.subtasks, a.events + c.events,
          a.audits + c.audits, a.measurements + c.measurements, a.evaluators + c.evaluators, a.successions + c.successions,
          a.campaigns + c.campaigns, a.partitions + c.partitions, a.budgets + c.budgets, a.observations + c.observations, a.metrics + c.metrics,
          a.confounds + c.confounds, a.decisions + c.decisions,
          a.trailHeads + c.trailHeads, a.runHeads + c.runHeads, a.progressHeads + c.progressHeads, a.harnessHeads + c.harnessHeads)
  }

  /** Everything the accepted records of a log contribute, in order. */
  function AddedAll(b: Builders, records: seq<Entry>): Added
  {
    if records == [] then NOTHING_ADDED
    else
      var r, front := records[|records| - 1], AddedAll(b, records[..|records| - 1]);
      Join(front, if TakesEffect(r) then AddedBy(b, RowMap(front.partitions), r.proposal.content) else NOTHING_ADDED)
  }

  // ---- a state grows by rows ----

  predicate TrailsGrow(t: Trails, a: Added, u: Trails)
  {
    && AddRows(t.evidence, a.evidence) == Ok(u.evidence) && AddRows(t.claims, a.claims) == Ok(u.claims)
    && AddRows(t.versions, a.trailVersions) == Ok(u.versions) && AddRows(t.rows, a.rows) == Ok(u.rows)
    && u.heads == t.heads + RowMap(a.trailHeads)
  }

  predicate ProgressGrows(p: Progress, a: Added, q: Progress)
  {
    && AddRows(p.runs, a.runs) == Ok(q.runs) && AddRows(p.runEvents, a.runEvents) == Ok(q.runEvents)
    && AddRows(p.plans, a.plans) == Ok(q.plans) && AddRows(p.subtasks, a.subtasks) == Ok(q.subtasks)
    && AddRows(p.events, a.events) == Ok(q.events)
    && q.runHeads == p.runHeads + RowMap(a.runHeads) && q.heads == p.heads + RowMap(a.progressHeads)
  }

  predicate EvaluatorsGrow(e: Evaluators, a: Added, f: Evaluators)
  {
    && AddRows(e.audits, a.audits) == Ok(f.audits) && AddRows(e.measurements, a.measurements) == Ok(f.measurements)
    && AddRows(e.versions, a.evaluators) == Ok(f.versions) && AddRows(e.successions, a.successions) == Ok(f.successions)
  }

  predicate HarnessGrows(h: Harness, a: Added, g: Harness)
  {
    && AddRows(h.campaigns, a.campaigns) == Ok(g.campaigns) && AddRows(h.partitions, a.partitions) == Ok(g.partitions)
    && AddRows(h.budgets, a.budgets) == Ok(g.budgets) && AddRows(h.observations, a.observations) == Ok(g.observations)
    && AddRows(h.metrics, a.metrics) == Ok(g.metrics)
    && AddRows(h.confounds, a.confounds) == Ok(g.confounds) && AddRows(h.decisions, a.decisions) == Ok(g.decisions)
    && g.heads == h.heads + RowMap(a.harnessHeads)
  }

  predicate Grows(s: Expected, a: Added, u: Expected)
  {
    TrailsGrow(s.trails, a, u.trails) && ProgressGrows(s.progress, a, u.progress)
    && EvaluatorsGrow(s.evaluators, a, u.evaluators) && HarnessGrows(s.harness, a, u.harness)
  }

  lemma OneRow<K, V>(table: map<K, V>, key: K, value: V)
    ensures AddRows(table, [(key, value)]) == AddUnique(table, key, value)
    ensures RowMap([(key, value)]) == map[key := value] && table + RowMap([(key, value)]) == table[key := value]
  {
    FoldSnoc(AddRow(), table, [], (key, value));
    assert [] + [(key, value)] == [(key, value)];
    assert [(key, value)][..0] == [];
  }

  predicate NoTrailRows(a: Added)
  {
    a.evidence == [] && a.claims == [] && a.trailVersions == [] && a.rows == [] && a.trailHeads == []
  }

  predicate NoProgressRows(a: Added)
  {
    a.runs == [] && a.runEvents == [] && a.plans == [] && a.subtasks == [] && a.events == [] && a.runHeads == [] && a.progressHeads == []
  }

  predicate NoEvaluatorRows(a: Added)
  {
    a.audits == [] && a.measurements == [] && a.evaluators == [] && a.successions == []
  }

  predicate NoHarnessRows(a: Added)
  {
    && a.campaigns == [] && a.partitions == [] && a.budgets == [] && a.observations == [] && a.metrics == [] && a.confounds == []
    && a.decisions == [] && a.harnessHeads == []
  }

  lemma TrailsStay(t: Trails, a: Added)
    requires NoTrailRows(a)
    ensures TrailsGrow(t, a, t)
  {}

  lemma ProgressStays(p: Progress, a: Added)
    requires NoProgressRows(a)
    ensures ProgressGrows(p, a, p)
  {}

  lemma EvaluatorsStay(e: Evaluators, f: Evaluators, a: Added)
    requires NoEvaluatorRows(a)
    requires f == e.(head := f.head, succeeded := f.succeeded)
    ensures EvaluatorsGrow(e, a, f)
  {}

  lemma HarnessStays(h: Harness, a: Added)
    requires NoHarnessRows(a)
    ensures HarnessGrows(h, a, h)
  {}

  // ---- each family grows by what the record says ----

  lemma TrailContentGrows(b: Builders, manifests: map<Id, Manifest>, t: Trails, governing: Digest, c: Content, u: Trails)
    requires OfTrails(c)
    requires Ok(u) == match c
      case EvidenceAdded(e) => AddEvidence(t, b.verified(e))
      case ClaimProposed(claim) => AddClaim(t, claim)
      case ClaimTransitioned(claim) => AddClaim(t, claim)
      case TrailVersionRecorded(v, rows) => AddVersion(t, governing, v, rows)
    ensures TrailsGrow(t, AddedBy(b, manifests, c), u)
  {
    hide AddRows, RowMap, Continues;
    TrailsStay(t, NOTHING_ADDED);
    match c {
      case EvidenceAdded(e) => OneRow(t.evidence, b.verified(e).id, b.verified(e));
      case ClaimProposed(claim) => OneRow(t.claims, claim.key, claim);
      case ClaimTransitioned(claim) => OneRow(t.claims, claim.key, claim);
      case TrailVersionRecorded(v, rows) => OneRow(t.versions, v.id, v); OneRow(t.heads, v.trailId, (v.id, v.version));
    }
  }

  lemma {:induction false} SubtasksAreRows(planId: Id, start: map<Id, Subtask>, plan: Plan, n: nat)
    requires n <= |plan.subtasks| && Fold(SubtaskRow(planId), start, plan.subtasks[..n]).Ok?
    ensures AddRows(start, SubtaskRows(plan)[..n]) == Fold(SubtaskRow(planId), start, plan.subtasks[..n])
  {
    if n > 0 {
      assert plan.subtasks[..n][..n - 1] == plan.subtasks[..n - 1];
      assert SubtaskRows(plan)[..n][..n - 1] == SubtaskRows(plan)[..n - 1];
      FoldPrefix(SubtaskRow(planId), start, plan.subtasks[..n], n - 1);
      SubtasksAreRows(planId, start, plan, n - 1);
    }
  }

  lemma {:induction false} ManifestsAreRows(governing: Digest, start: map<Id, Manifest>, c: Campaign, n: nat)
    requires n <= |c.partitions| && Fold(ManifestRow(governing), start, c.partitions[..n]).Ok?
    ensures AddRows(start, ManifestRows(c)[..n]) == Fold(ManifestRow(governing), start, c.partitions[..n])
  {
    if n > 0 {
      assert c.partitions[..n][..n - 1] == c.partitions[..n - 1];
      assert ManifestRows(c)[..n][..n - 1] == ManifestRows(c)[..n - 1];
      FoldPrefix(ManifestRow(governing), start, c.partitions[..n], n - 1);
      ManifestsAreRows(governing, start, c, n - 1);
    }
  }

  lemma RunGrows(b: Builders, manifests: map<Id, Manifest>, p: Progress, governing: Digest, run: Run, q: Progress)
    requires AddRun(p, governing, run) == Ok(q)
    ensures ProgressGrows(p, AddedBy(b, manifests, RunCreated(run)), q)
  {
    hide AddRows, RowMap;
    ProgressStays(p, NOTHING_ADDED);
    OneRow(p.runs, run.id, run);
  }

  lemma RunEventGrows(b: Builders, manifests: map<Id, Manifest>, p: Progress, governing: Digest, e: RunEvent, q: Progress)
    requires AddRunEvent(p, governing, e) == Ok(q)
    ensures ProgressGrows(p, AddedBy(b, manifests, RunEventAppended(e)), q)
  {
    hide AddRows, RowMap;
    ProgressStays(p, NOTHING_ADDED);
    OneRow(p.runEvents, e.id, e);
    OneRow(p.runHeads, e.runId, e.id);
  }

  lemma PlanGrows(b: Builders, manifests: map<Id, Manifest>, p: Progress, governing: Digest, plan: Plan, q: Progress)
    requires AddPlan(p, governing, plan) == Ok(q)
    ensures ProgressGrows(p, AddedBy(b, manifests, PlanRecorded(plan)), q)
  {
    hide AddRows, RowMap, NextVersion;
    ProgressStays(p, NOTHING_ADDED);
    OneRow(p.plans, plan.id, plan);
    assert plan.subtasks[..|plan.subtasks|] == plan.subtasks && SubtaskRows(plan)[..|plan.subtasks|] == SubtaskRows(plan);
    SubtasksAreRows(plan.id, p.subtasks, plan, |plan.subtasks|);
  }

  lemma ProgressEventGrows(b: Builders, manifests: map<Id, Manifest>, p: Progress, governing: Digest, e: ProgressEvent, q: Progress)
    requires AddProgressEvent(p, governing, e) == Ok(q)
    ensures ProgressGrows(p, AddedBy(b, manifests, ProgressEventAppended(e)), q)
  {
    hide AddRows, RowMap, Advances, BelongsToPlan;
    ProgressStays(p, NOTHING_ADDED);
    OneRow(p.events, e.id, e);
    OneRow(p.heads, e.runId, (e.planId, e.id));
  }

  lemma AuditGrows(b: Builders, manifests: map<Id, Manifest>, e: Evaluators, governing: Digest, audit: EvaluatorAudit, f: Evaluators)
    requires AddAudit(e, governing, audit) == Ok(f)
    ensures EvaluatorsGrow(e, AddedBy(b, manifests, AuditRecorded(audit)), f)
  {
    hide AddRows, RowMap;
    EvaluatorsStay(e, e, NOTHING_ADDED);
    OneRow(e.audits, audit.id, audit);
  }

  lemma MeasurementGrows(b: Builders, manifests: map<Id, Manifest>, e: Evaluators, runs: map<Id, Run>, governing: Digest, m: Measurement, f: Evaluators)
    requires AddMeasurement(e, runs, governing, m) == Ok(f)
    ensures EvaluatorsGrow(e, AddedBy(b, manifests, MeasurementRecorded(m)), f)
  {
    hide AddRows, RowMap;
    EvaluatorsStay(e, e, NOTHING_ADDED);
    OneRow(e.measurements, m.id, m);
  }

  lemma EvaluatorGrows(b: Builders, manifests: map<Id, Manifest>, e: Evaluators, governing: Digest, v: EvaluatorVersion, f: Evaluators)
    requires AddEvaluator(e, governing, v) == Ok(f)
    ensures EvaluatorsGrow(e, AddedBy(b, manifests, EvaluatorProposed(v)), f)
  {
    hide AddRows, RowMap;
    EvaluatorsStay(e, e, NOTHING_ADDED);
    OneRow(e.versions, v.id, v);
  }

  lemma SuccessionGrows(b: Builders, manifests: map<Id, Manifest>, e: Evaluators, governing: Digest, d: Succession, f: Evaluators)
    requires AddSuccession(e, governing, d) == Ok(f)
    ensures EvaluatorsGrow(e, AddedBy(b, manifests, SuccessionDecided(d)), f)
  {
    hide AddRows, RowMap, Roots;
    EvaluatorsStay(e, e, NOTHING_ADDED);
    OneRow(e.successions, d.id, d);
  }

  lemma CampaignGrows(b: Builders, h: Harness, governing: Digest, c: Campaign, g: Harness)
    requires AddCampaign(b.campaignHash, h, governing, c) == Ok(g)
    ensures HarnessGrows(h, AddedByHarness(b, h.partitions, CreateCampaign(c)), g)
  {
    hide AddRows, RowMap, BudgetRows, RowOfCampaign;
    HarnessStays(h, NOTHING_ADDED);
    OneRow(h.campaigns, c.id, RowOfCampaign(b.campaignHash, c));
    assert c.partitions[..|c.partitions|] == c.partitions && ManifestRows(c)[..|c.partitions|] == ManifestRows(c);
    ManifestsAreRows(governing, h.partitions, c, |c.partitions|);
  }

  lemma ObservationGrows(b: Builders, h: Harness, governing: Digest, it: Iteration, named: Digest, g: Harness)
    requires AddObservation(h, governing, it, named) == Ok(g)
    ensures HarnessGrows(h, AddedByHarness(b, h.partitions, RecordIteration(it, named)), g)
  {
    hide AddRows, RowMap;
    HarnessStays(h, NOTHING_ADDED);
    OneRow(h.observations, it.observationId, ObservationOf(h.partitions, it, named));
  }

  lemma HarnessContentGrows(b: Builders, h: Harness, governing: Digest, p: HarnessProposal, g: Harness)
    requires ApplyHarness(b.campaignHash, h, governing, p) == Ok(g)
    ensures HarnessGrows(h, AddedByHarness(b, h.partitions, p), g)
  {
    hide AddRows, RowMap, ResultBinds, ReportBinds, AddCampaign, AddObservation;
    HarnessStays(h, NOTHING_ADDED);
    match p {
      case CreateCampaign(c) => CampaignGrows(b, h, governing, c, g);
      case RecordIteration(it, named) => ObservationGrows(b, h, governing, it, named, g);
      case RecordProtectedResult(_, _, _, result, _) => OneRow(h.metrics, result.id, result);
      case RecordConfound(c) => OneRow(h.confounds, c.id, c);
      case DecideCampaign(d, report) =>
        OneRow(h.decisions, d.id, DecisionRow(d, report.resultIds, report.confoundIds));
        OneRow(h.heads, d.campaignId, (d.id, d.status));
    }
  }

  lemma TransitionGrows(b: Builders, s: Expected, governing: Digest, c: Content, u: Expected)
    requires c.PolicyTransitioned? && ApplyTransition(s, governing, c.transition, c.newRun, c.newAudit, c.newMeasurement) == Ok(u)
    ensures Grows(s, AddedBy(b, s.harness.partitions, c), u)
  {
    hide AddRows, RowMap;
    var a := AddedBy(b, s.harness.partitions, c);
    TrailsStay(s.trails, a);
    HarnessStays(s.harness, a);
    ProgressStays(s.progress, NOTHING_ADDED);
    EvaluatorsStay(s.evaluators, s.evaluators, NOTHING_ADDED);
    OneRow(s.progress.runs, c.newRun.id, c.newRun);
    OneRow(s.evaluators.audits, c.newAudit.id, c.newAudit);
    OneRow(s.evaluators.measurements, c.newMeasurement.id, c.newMeasurement);
  }

  predicate OfTrails(c: Content)
  {
    c.EvidenceAdded? || c.ClaimProposed? || c.ClaimTransitioned? || c.TrailVersionRecorded?
  }

  predicate OfProgress(c: Content)
  {
    c.RunCreated? || c.RunEventAppended? || c.PlanRecorded? || c.ProgressEventAppended?
  }

  predicate OfEvaluators(c: Content)
  {
    c.AuditRecorded? || c.MeasurementRecorded? || c.EvaluatorProposed? || c.SuccessionDecided?
  }

  /** A record other than a policy transition contributes to its own family only. */
  lemma OneFamily(b: Builders, manifests: map<Id, Manifest>, c: Content)
    requires !c.PolicyTransitioned?
    ensures
      var a := AddedBy(b, manifests, c);
      && (OfTrails(c) || NoTrailRows(a)) && (OfProgress(c) || NoProgressRows(a))
      && (OfEvaluators(c) || NoEvaluatorRows(a)) && (c.HarnessStep? || NoHarnessRows(a))
  {
    hide RowOfCampaign, BudgetRows, ManifestRows, SubtaskRows, KeyedRows, ObservationOf;
  }

  /** Applying an accepted record adds exactly its own rows and sets exactly its own heads. */
  lemma ApplyGrows(b: Builders, s: Expected, governing: Digest, c: Content, u: Expected)
    requires Apply(b, s, governing, c) == Ok(u)
    ensures Grows(s, AddedBy(b, s.harness.partitions, c), u)
  {
    hide TrailsGrow, ProgressGrows, EvaluatorsGrow, HarnessGrows, NoTrailRows, NoProgressRows, NoEvaluatorRows, NoHarnessRows, AddedBy;
    hide AddEvidence, AddClaim, AddVersion, AddRun, AddRunEvent, AddPlan, AddProgressEvent;
    hide AddAudit, AddMeasurement, AddEvaluator, AddSuccession, ApplyHarness, ApplyTransition;
    if c.PolicyTransitioned? {
      TransitionGrows(b, s, governing, c, u);
    } else {
      var manifests := s.harness.partitions;
      OneFamily(b, manifests, c);
      OthersStay(s, u, AddedBy(b, manifests, c));
      match c {
        case RunCreated(run) => RunGrows(b, manifests, s.progress, governing, run, u.progress);
        case RunEventAppended(e) => RunEventGrows(b, manifests, s.progress, governing, e, u.progress);
        case PlanRecorded(plan) => PlanGrows(b, manifests, s.progress, governing, plan, u.progress);
        case ProgressEventAppended(e) => ProgressEventGrows(b, manifests, s.progress, governing, e, u.progress);
        case AuditRecorded(audit) => AuditGrows(b, manifests, s.evaluators, governing, audit, u.evaluators);
        case MeasurementRecorded(m) => MeasurementGrows(b, manifests, s.evaluators, s.progress.runs, governing, m, u.evaluators);
        case EvaluatorProposed(v) => EvaluatorGrows(b, manifests, s.evaluators, governing, v, u.evaluators);
        case SuccessionDecided(d) => SuccessionGrows(b, manifests, s.evaluators, governing, d, u.evaluators);
        case HarnessStep(p) => HarnessContentGrows(b, s.harness, governing, p, u.harness); HarnessRowsOf(b, manifests, p);
        case OutsideSlice(_) =>
        case _ => TrailContentGrows(b, manifests, s.trails, governing, c, u.trails);
      }
    }
  }

  lemma HarnessRowsOf(b: Builders, manifests: map<Id, Manifest>, p: HarnessProposal)
    ensures AddedBy(b, manifests, HarnessStep(p)) == AddedByHarness(b, manifests, p)
  {}

  /** Families a record does not touch stay as they are. */
  lemma OthersStay(s: Expected, u: Expected, a: Added)
    ensures u.trails == s.trails && NoTrailRows(a) ==> TrailsGrow(s.trails, a, u.trails)
    ensures u.progress == s.progress && NoProgressRows(a) ==> ProgressGrows(s.progress, a, u.progress)
    ensures u.evaluators == s.evaluators && NoEvaluatorRows(a) ==> EvaluatorsGrow(s.evaluators, a, u.evaluators)
    ensures u.harness == s.harness && NoHarnessRows(a) ==> HarnessGrows(s.harness, a, u.harness)
  {
    hide *;
    if u.trails == s.trails && NoTrailRows(a) {
      TrailsStay(s.trails, a);
    }
    if u.progress == s.progress && NoProgressRows(a) {
      ProgressStays(s.progress, a);
    }
    if u.evaluators == s.evaluators && NoEvaluatorRows(a) {
      EvaluatorsStay(s.evaluators, u.evaluators, a);
    }
    if u.harness == s.harness && NoHarnessRows(a) {
      HarnessStays(s.harness, a);
    }
  }

  // ---- growth composes ----

  lemma {:induction false} RowMapAppend<K, V>(rows: seq<(K, V)>, more: seq<(K, V)>)
    ensures RowMap(rows + more) == RowMap(rows) + RowMap(more)
  {
    if more == [] {
      assert rows + more == rows;
    } else {
      var n, last := |more| - 1, more[|more| - 1];
      RowMapAppend(rows, more[..n]);
      RowMapSnoc(rows + more[..n], last);
      RowMapSnoc(more[..n], last);
      assert rows + more == (rows + more[..n]) + [last];
      assert more == more[..n] + [last];
    }
  }

  lemma RowMapSnoc<K, V>(rows: seq<(K, V)>, last: (K, V))
    ensures RowMap(rows + [last]) == RowMap(rows)[last.0 := last.1]
  {}

  /** Heads set twice are heads set once by both. */
  lemma HeadsCompose<K, V>(heads: map<K, V>, rows: seq<(K, V)>, more: seq<(K, V)>)
    ensures heads + RowMap(rows + more) == heads + RowMap(rows) + RowMap(more)
  {
    hide RowMap;
    RowMapAppend(rows, more);
  }

  lemma TrailsCompose(t: Trails, a: Added, u: Trails, c: Added, w: Trails)
    requires TrailsGrow(t, a, u) && TrailsGrow(u, c, w)
    ensures TrailsGrow(t, Join(a, c), w)
  {
    hide AddRows, RowMap;
    AddRowsAppend(t.evidence, a.evidence, c.evidence);
    AddRowsAppend(t.claims, a.claims, c.claims);
    AddRowsAppend(t.versions, a.trailVersions, c.trailVersions);
    AddRowsAppend(t.rows, a.rows, c.rows);
    HeadsCompose(t.heads, a.trailHeads, c.trailHeads);
  }

  lemma ProgressComposes(p: Progress, a: Added, q: Progress, c: Added, w: Progress)
    requires ProgressGrows(p, a, q) && ProgressGrows(q, c, w)
    ensures ProgressGrows(p, Join(a, c), w)
  {
    hide AddRows, RowMap;
    AddRowsAppend(p.runs, a.runs, c.runs);
    AddRowsAppend(p.runEvents, a.runEvents, c.runEvents);
    AddRowsAppend(p.plans, a.plans, c.plans);
    AddRowsAppend(p.subtasks, a.subtasks, c.subtasks);
    AddRowsAppend(p.events, a.events, c.events);
    HeadsCompose(p.runHeads, a.runHeads, c.runHeads);
    HeadsCompose(p.heads, a.progressHeads, c.progressHeads);
  }

  lemma EvaluatorsCompose(e: Evaluators, a: Added, f: Evaluators, c: Added, w: Evaluators)
    requires EvaluatorsGrow(e, a, f) && EvaluatorsGrow(f, c, w)
    ensures EvaluatorsGrow(e, Join(a, c), w)
  {
    hide AddRows;
    AddRowsAppend(e.audits, a.audits, c.audits);
    AddRowsAppend(e.measurements, a.measurements, c.measurements);
    AddRowsAppend(e.versions, a.evaluators, c.evaluators);
    AddRowsAppend(e.successions, a.successions, c.successions);
  }

  lemma HarnessComposes(h: Harness, a: Added, g: Harness, c: Added, w: Harness)
    requires HarnessGrows(h, a, g) && HarnessGrows(g, c, w)
    ensures HarnessGrows(h, Join(a, c), w)
  {
    hide AddRows, RowMap;
    AddRowsAppend(h.campaigns, a.campaigns, c.campaigns);
    AddRowsAppend(h.partitions, a.partitions, c.partitions);
    AddRowsAppend(h.budgets, a.budgets, c.budgets);
    AddRowsAppend(h.observations, a.observations, c.observations);
    AddRowsAppend(h.metrics, a.metrics, c.metrics);
    AddRowsAppend(h.confounds, a.confounds, c.confounds);
    AddRowsAppend(h.decisions, a.decisions, c.decisions);
    HeadsCompose(h.heads, a.harnessHeads, c.harnessHeads);
  }

  lemma GrowsCompose(s: Expected, a: Added, u: Expected, c: Added, w: Expected)
    requires Grows(s, a, u) && Grows(u, c, w)
    ensures Grows(s, Join(a, c), w)
  {
    hide TrailsGrow, ProgressGrows, EvaluatorsGrow, HarnessGrows;
    TrailsCompose(s.trails, a, u.trails, c, w.trails);
    ProgressComposes(s.progress, a, u.progress, c, w.progress);
    EvaluatorsCompose(s.evaluators, a, u.evaluators, c, w.evaluators);
    HarnessComposes(s.harness, a, u.harness, c, w.harness);
  }

  lemma NothingGrows(s: Expected)
    ensures Grows(s, NOTHING_ADDED, s)
  {}

  /** A dictionary that holds exactly these rows, no key twice. */
  ghost predicate Holds<K, V>(table: map<K, V>, rows: seq<(K, V)>)
  {
    DistinctRows(rows) && table == RowMap(rows)
  }

  lemma FilledHolds<K, V>(rows: seq<(K, V)>, table: map<K, V>)
    requires AddRows(map[], rows) == Ok(table)
    ensures Holds(table, rows)
  {
    AddRowsExactly(map[], rows);
    assert map[] + RowMap(rows) == RowMap(rows);
  }

  /** The manifests replayed so far are those the log's own rows so far say. */
  lemma FilledManifests(a: Added, s: Expected)
    requires Grows(NOTHING_REPLAYED, a, s)
    ensures s.harness.partitions == RowMap(a.partitions)
  {
    hide AddRows, RowMap, TrailsGrow, ProgressGrows, EvaluatorsGrow;
    FilledHolds(a.partitions, s.harness.partitions);
  }

  lemma {:induction false} ReplayGrows(b: Builders, passes: Verdict, records: seq<Entry>)
    requires Replay(b, passes, records).Ok?
    ensures Grows(NOTHING_REPLAYED, AddedAll(b, records), Replay(b, passes, records).value)
  {
    hide Grows, Apply, AddedBy, Join;
    if records == [] {
      NothingGrows(NOTHING_REPLAYED);
    } else {
      var n := |records| - 1;
      var front, r := records[..n], records[n];
      FoldPrefix(Step(b, passes), NOTHING_REPLAYED, records, n);
      ReplayGrows(b, passes, front);
      var before, after := Replay(b, passes, front).value, Replay(b, passes, records).value;
      if TakesEffect(r) {
        FilledManifests(AddedAll(b, front), before);
        ApplyGrows(b, before, r.governing, r.proposal.content, after);
        GrowsCompose(NOTHING_REPLAYED, AddedAll(b, front), before, AddedBy(b, before.harness.partitions, r.proposal.content), after);
      } else {
        NothingGrows(before);
        GrowsCompose(NOTHING_REPLAYED, AddedAll(b, front), before, NOTHING_ADDED, after);
      }
    }
  }

  // ---- the tables are the log ----

  ghost predicate TrailsAre(t: Trails, a: Added)
  {
    && Holds(t.evidence, a.evidence) && Holds(t.claims, a.claims) && Holds(t.versions, a.trailVersions) && Holds(t.rows, a.rows)
    && t.heads == RowMap(a.trailHeads)
  }

  ghost predicate ProgressIs(p: Progress, a: Added)
  {
    && Holds(p.runs, a.runs) && Holds(p.runEvents, a.runEvents) && Holds(p.plans, a.plans) && Holds(p.subtasks, a.subtasks)
    && Holds(p.events, a.events) && p.runHeads == RowMap(a.runHeads) && p.heads == RowMap(a.progressHeads)
  }

  ghost predicate EvaluatorsAre(e: Evaluators, a: Added)
  {
    && Holds(e.audits, a.audits) && Holds(e.measurements, a.measurements) && Holds(e.versions, a.evaluators)
    && Holds(e.successions, a.successions)
  }

  ghost predicate HarnessIs(h: Harness, a: Added)
  {
    && Holds(h.campaigns, a.campaigns) && Holds(h.partitions, a.partitions) && Holds(h.budgets, a.budgets)
    && Holds(h.observations, a.observations) && Holds(h.metrics, a.metrics) && Holds(h.confounds, a.confounds)
    && Holds(h.decisions, a.decisions) && h.heads == RowMap(a.harnessHeads)
  }

  lemma NoHeadsBefore<K, V>(rows: seq<(K, V)>)
    ensures map[] + RowMap(rows) == RowMap(rows)
  {}

  lemma TrailsFilled(a: Added, t: Trails)
    requires TrailsGrow(NO_TRAILS, a, t)
    ensures TrailsAre(t, a)
  {
    hide AddRows, RowMap, Holds;
    FilledHolds(a.evidence, t.evidence);
    FilledHolds(a.claims, t.claims);
    FilledHolds(a.trailVersions, t.versions);
    FilledHolds(a.rows, t.rows);
    NoHeadsBefore(a.trailHeads);
  }

  lemma ProgressFilled(a: Added, p: Progress)
    requires ProgressGrows(NO_PROGRESS, a, p)
    ensures ProgressIs(p, a)
  {
    hide AddRows, RowMap, Holds;
    FilledHolds(a.runs, p.runs);
    FilledHolds(a.runEvents, p.runEvents);
    FilledHolds(a.plans, p.plans);
    FilledHolds(a.subtasks, p.subtasks);
    FilledHolds(a.events, p.events);
    NoHeadsBefore(a.runHeads);
    NoHeadsBefore(a.progressHeads);
  }

  lemma EvaluatorsFilled(a: Added, e: Evaluators)
    requires EvaluatorsGrow(NO_EVALUATORS, a, e)
    ensures EvaluatorsAre(e, a)
  {
    hide AddRows, RowMap, Holds;
    FilledHolds(a.audits, e.audits);
    FilledHolds(a.measurements, e.measurements);
    FilledHolds(a.evaluators, e.versions);
    FilledHolds(a.successions, e.successions);
  }

  lemma HarnessFilled(a: Added, h: Harness)
    requires HarnessGrows(NO_HARNESS, a, h)
    ensures HarnessIs(h, a)
  {
    hide AddRows, RowMap, Holds;
    FilledHolds(a.campaigns, h.campaigns);
    FilledHolds(a.partitions, h.partitions);
    FilledHolds(a.budgets, h.budgets);
    FilledHolds(a.observations, h.observations);
    FilledHolds(a.metrics, h.metrics);
    FilledHolds(a.confounds, h.confounds);
    FilledHolds(a.decisions, h.decisions);
    NoHeadsBefore(a.harnessHeads);
  }

  /** After any successful replay each dictionary is exactly the accepted records' rows, no id used
      twice, and each head is the last one set. */
  lemma TablesAreTheLog(b: Builders, passes: Verdict, records: seq<Entry>)
    requires Replay(b, passes, records).Ok?
    ensures
      var s, a := Replay(b, passes, records).value, AddedAll(b, records);
      TrailsAre(s.trails, a) && ProgressIs(s.progress, a) && EvaluatorsAre(s.evaluators, a) && HarnessIs(s.harness, a)
  {
    hide Replay, AddedAll, TrailsGrow, ProgressGrows, EvaluatorsGrow, HarnessGrows, TrailsAre, ProgressIs, EvaluatorsAre, HarnessIs;
    var s, a := Replay(b, passes, records).value, AddedAll(b, records);
    ReplayGrows(b, passes, records);
    TrailsFilled(a, s.trails);
    ProgressFilled(a, s.progress);
    EvaluatorsFilled(a, s.evaluators);
    HarnessFilled(a, s.harness);
  }
}
