/** Which logs the audit replay accepts: every record that takes effect has to fit the rows of the
    records before it. */
module ReplayAcceptance {
  import opened Common
  import opened Ordering
  import opened ReplayTables
  import opened AuditLog
  import opened PolicyReplay
  import opened ProgressReplay
  import opened TrailReplay
  import opened EvaluatorReplay
  import opened HarnessReplay
  import opened AuditReplay
  import opened ReplayConservation

  // ---- rows of a log ----

  predicate Has<K(==), V>(rows: seq<(K, V)>, key: K)
  {
    exists i :: 0 <= i < |rows| && rows[i].0 == key
  }

  /** The versions of a trail, in the order of the log. */
  function VersionsIn(rows: seq<(Id, TrailVersion)>, trailId: Id): seq<TrailVersion>
  {
    if rows == [] then []
    else
      var last := rows[|rows| - 1].1;
      VersionsIn(rows[..|rows| - 1], trailId) + (if last.trailId == trailId then [last] else [])
  }

  /** The plans of a run, in the order of the log. */
  function PlansIn(rows: seq<(Id, Plan)>, runId: Id): seq<Plan>
  {
    if rows == [] then []
    else
      var last := rows[|rows| - 1].1;
      PlansIn(rows[..|rows| - 1], runId) + (if last.runId == runId then [last] else [])
  }

  /** The accepted successions, in the order of the log. */
  function SuccessionsIn(rows: seq<(Id, Succession)>): seq<Succession>
  {
    if rows == [] then []
    else
      var last := rows[|rows| - 1].1;
      SuccessionsIn(rows[..|rows| - 1]) + (if last.accepted then [last] else [])
  }

  // ---- what a record needs of the rows before it ----

  ghost predicate TrailContentFits(b: Builders, a: Added, governing: Digest, c: Content)
    requires OfTrails(c)
  {
    match c
    case EvidenceAdded(e) => !Has(a.evidence, b.verified(e).id)
    case ClaimProposed(claim) => !Has(a.claims, claim.key)
    case ClaimTransitioned(claim) => !Has(a.claims, claim.key)
    case TrailVersionRecorded(v, rows) =>
      && v.governing == governing && Has(a.claims, v.claim) && !Has(a.trailVersions, v.id)
      && ContinuesTrail(a, v)
      && (forall i, j :: 0 <= i < j < |rows| ==> (rows[i].0, rows[i].1.id) != (rows[j].0, rows[j].1.id))
      && (forall i :: 0 <= i < |rows| ==> !Has(a.rows, (rows[i].0, rows[i].1.id)))
  }

  /** The next version of its trail; after the first it continues the last one and that one's claim. */
  ghost predicate ContinuesTrail(a: Added, v: TrailVersion)
  {
    var earlier := VersionsIn(a.trailVersions, v.trailId);
    && v.version == |earlier| + 1
    && (if earlier == [] then v.parent.None?
        else
          var last := earlier[|earlier| - 1];
          v.parent == Some(last.id) && exists claim: Claim :: (v.claim, claim) in a.claims && claim.parent == Some(last.claim))
  }

  ghost predicate ProgressContentFits(a: Added, governing: Digest, c: Content)
    requires OfProgress(c)
  {
    match c
    case RunCreated(run) => run.governing == governing && !Has(a.runs, run.id)
    case RunEventAppended(e) => e.governing == governing && Has(a.runs, e.runId) && !Has(a.runEvents, e.id)
    case PlanRecorded(plan) =>
      && plan.governing == governing && Has(a.runs, plan.runId) && !Has(a.plans, plan.id)
      && plan.version == |PlansIn(a.plans, plan.runId)| + 1
      && (forall i :: 0 <= i < |plan.subtasks| ==> plan.subtasks[i].planId == plan.id && !Has(a.subtasks, plan.subtasks[i].id))
      && (forall i, j :: 0 <= i < j < |plan.subtasks| ==> plan.subtasks[i].id != plan.subtasks[j].id)
    case ProgressEventAppended(e) =>
      && e.governing == governing && Has(a.runs, e.runId) && !Has(a.events, e.id)
      && (exists plan: Plan :: (e.planId, plan) in a.plans && plan.runId == e.runId && plan.version == |PlansIn(a.plans, e.runId)|)
      && (exists subtask: Subtask :: (e.subtaskId, subtask) in a.subtasks && subtask.planId == e.planId)
      && (forall id, x: ProgressEvent :: (id, x) in a.events && x.runId == e.runId && x.planId == e.planId ==> After(e, x))
  }

  /** Later in time, or at the same time with a greater id. */
  predicate After(e: ProgressEvent, x: ProgressEvent)
  {
    x.at < e.at || (x.at == e.at && x.id != e.id && StringLeq(x.id, e.id))
  }

  ghost predicate EvaluatorContentFits(a: Added, governing: Digest, c: Content)
    requires OfEvaluators(c)
  {
    match c
    case AuditRecorded(audit) => audit.governing == governing && !Has(a.audits, audit.id)
    case MeasurementRecorded(m) =>
      m.governing == governing && Has(a.runs, m.runId) && Has(a.audits, m.auditId) && !Has(a.measurements, m.id)
    case EvaluatorProposed(v) => v.governing == governing && !Has(a.evaluators, v.id)
    case SuccessionDecided(d) =>
      && d.governing == governing && Has(a.evaluators, d.predecessor) && Has(a.evaluators, d.candidate) && !Has(a.successions, d.id)
      && (d.accepted ==> Succeeds(a, d.predecessor))
  }

  /** The candidate of the last accepted succession, or before any the only evaluator without a
      predecessor. */
  ghost predicate Succeeds(a: Added, predecessor: Id)
  {
    var earlier := SuccessionsIn(a.successions);
    if earlier != [] then earlier[|earlier| - 1].candidate == predecessor else OnlyRoot(a.evaluators, predecessor)
  }

  ghost predicate OnlyRoot(evaluators: seq<(Id, EvaluatorVersion)>, root: Id)
  {
    && (exists v: EvaluatorVersion :: (root, v) in evaluators && v.predecessor.None?)
    && forall id, v: EvaluatorVersion :: (id, v) in evaluators && v.predecessor.None? ==> id == root
  }

  ghost predicate HarnessContentFits(b: Builders, a: Added, governing: Digest, p: HarnessProposal)
  {
    match p
    case CreateCampaign(c) =>
      && c.governing == governing && !Has(a.campaigns, c.id)
      && (forall i :: 0 <= i < |c.partitions| ==> c.partitions[i].governing == governing && !Has(a.partitions, c.partitions[i].id))
      && (forall i, j :: 0 <= i < j < |c.partitions| ==> c.partitions[i].id != c.partitions[j].id)
      && (forall i :: 0 <= i < |c.budgets| ==> !Has(a.budgets, c.budgets[i].id))
      && (forall i, j :: 0 <= i < j < |c.budgets| ==> c.budgets[i].id != c.budgets[j].id)
    case RecordIteration(it, named) =>
      && named == governing && !Has(a.observations, it.observationId)
      && exists m: Manifest, budget: BudgetRow :: (it.manifestId, m) in a.partitions && (it.budgetId, budget) in a.budgets && IteratesOn(a, it, m, budget)
    case RecordProtectedResult(observationId, manifestId, variant, result, named) =>
      && named == governing && !Has(a.metrics, result.id)
      && exists o: Observation, m: Manifest :: (observationId, o) in a.observations && (manifestId, m) in a.partitions
           && MeasuresIn(o, m, manifestId, variant, result)
    case RecordConfound(c) => c.governing == governing && Has(a.campaigns, c.campaignId) && !Has(a.confounds, c.id)
    case DecideCampaign(d, report) =>
      && d.governing == governing && !Has(a.decisions, d.id) && d.campaignId == report.campaign.id
      && (d.campaignId, CampaignRow(report.campaign.id, report.campaign.governing, report.campaign.body, b.campaignHash(report.campaign))) in a.campaigns
      && (forall i :: 0 <= i < |report.resultIds| ==> Has(a.metrics, report.resultIds[i]))
      && (forall i :: 0 <= i < |report.confoundIds| ==> Has(a.confounds, report.confoundIds[i]))
  }

  /** The iteration runs a task of the manifest, on its partition, with a budget of its campaign for the
      variant. */
  predicate IteratesOn(a: Added, it: Iteration, m: Manifest, budget: BudgetRow)
  {
    && it.taskId in m.taskIds && it.partition == m.partition && Has(a.campaigns, m.campaignId)
    && budget.campaignId == m.campaignId && budget.variant == it.variant
  }

  /** The result is the one the observation announced, in the same campaign. */
  predicate MeasuresIn(o: Observation, m: Manifest, manifestId: Id, variant: string, result: Metric)
  {
    && m.campaignId == result.campaignId == o.campaignId && o.manifestId == manifestId && o.variant == variant
    && (o.taskId, o.outputHash, o.resultId, o.outcome) == (result.taskId, result.outputHash, Some(result.id), result.outcome)
  }

  /** A policy transition brings its own run, audit and measurement, all under the prior policy. */
  ghost predicate TransitionFits(a: Added, governing: Digest, t: Transition, run: Run, audit: EvaluatorAudit, m: Measurement)
  {
    && governing == t.prior == run.governing == audit.governing == m.governing
    && !Has(a.runs, run.id) && !Has(a.audits, audit.id) && !Has(a.measurements, m.id)
    && (m.runId == run.id || Has(a.runs, m.runId)) && (m.auditId == audit.id || Has(a.audits, m.auditId))
  }

  ghost predicate Fits(b: Builders, a: Added, governing: Digest, c: Content)
  {
    if OfTrails(c) then TrailContentFits(b, a, governing, c)
    else if OfProgress(c) then ProgressContentFits(a, governing, c)
    else if OfEvaluators(c) then EvaluatorContentFits(a, governing, c)
    else match c
      case HarnessStep(p) => HarnessContentFits(b, a, governing, p)
      case PolicyTransitioned(t, run, audit, m) => TransitionFits(a, governing, t, run, audit, m)
      case _ => true
  }

  /** Every record that takes effect passes its verdict and fits the rows of the records before it. */
  ghost predicate AllFit(b: Builders, passes: Verdict, records: seq<Entry>)
  {
    forall i :: 0 <= i < |records| && TakesEffect(records[i]) ==>
      passes(records[i].sequence) && Fits(b, AddedAll(b, records[..i]), records[i].governing, records[i].proposal.content)
  }

  // ---- dictionaries and rows ----

  lemma HoldsMeans<K, V>(table: map<K, V>, rows: seq<(K, V)>)
    requires Holds(table, rows)
    ensures forall key :: key in table <==> Has(rows, key)
    ensures forall key, value :: (key, value) in rows <==> key in table && table[key] == value
  {
    RowMapKeys(rows);
    forall key, value
      ensures (key, value) in rows <==> key in table && table[key] == value
    {
      if (key, value) in rows {
        var i :| 0 <= i < |rows| && rows[i] == (key, value);
      }
      if key in table && table[key] == value {
        var i :| 0 <= i < |rows| && rows[i].0 == key;
        assert rows[i].1 == value;
      }
    }
  }

  // ---- trails ----

  /** Versions of a trail count up, and its head is the last one. */
  ghost predicate TrailLog(t: Trails, a: Added)
  {
    forall trailId :: TrailRuns(t, VersionsIn(a.trailVersions, trailId), trailId)
  }

  ghost predicate TrailRuns(t: Trails, versions: seq<TrailVersion>, trailId: Id)
  {
    && (forall j :: 0 <= j < |versions| ==>
          versions[j].version == j + 1 && versions[j].trailId == trailId && versions[j].id in t.versions && t.versions[versions[j].id] == versions[j])
    && (trailId in t.heads <==> versions != [])
    && (versions != [] ==> t.heads[trailId] == (versions[|versions| - 1].id, |versions|))
  }

  lemma ContinuesExactly(t: Trails, a: Added, v: TrailVersion)
    requires Holds(t.claims, a.claims) && TrailLog(t, a)
    ensures v.claim in t.claims && Continues(t, v) <==> Has(a.claims, v.claim) && ContinuesTrail(a, v)
  {
    hide Holds;
    HoldsMeans(t.claims, a.claims);
    var earlier := VersionsIn(a.trailVersions, v.trailId);
    assert TrailRuns(t, earlier, v.trailId);
    if earlier != [] {
      var last := earlier[|earlier| - 1];
      assert t.versions[last.id] == last;
    }
  }

  lemma KeyedRowsFit(a: Added, table: Rows, rows: seq<(RowKind, TrailRow)>)
    requires Holds(table, a.rows)
    ensures AddRows(table, KeyedRows(rows)).Ok? <==>
      && (forall i, j :: 0 <= i < j < |rows| ==> (rows[i].0, rows[i].1.id) != (rows[j].0, rows[j].1.id))
      && (forall i :: 0 <= i < |rows| ==> !Has(a.rows, (rows[i].0, rows[i].1.id)))
  {
    hide Holds, AddRows;
    HoldsMeans(table, a.rows);
    AddRowsExactly(table, KeyedRows(rows));
    assert forall i :: 0 <= i < |rows| ==> KeyedRows(rows)[i].0 == (rows[i].0, rows[i].1.id);
  }

  lemma TrailFitsExactly(b: Builders, s: Expected, a: Added, governing: Digest, c: Content)
    requires OfTrails(c) && TrailsAre(s.trails, a) && TrailLog(s.trails, a)
    ensures Apply(b, s, governing, c).Ok? <==> TrailContentFits(b, a, governing, c)
  {
    hide Holds, AddRows, Continues, ContinuesTrail, TrailLog, Has;
    var t := s.trails;
    HoldsMeans(t.evidence, a.evidence);
    HoldsMeans(t.claims, a.claims);
    HoldsMeans(t.versions, a.trailVersions);
    match c {
      case EvidenceAdded(e) =>
      case ClaimProposed(claim) =>
      case ClaimTransitioned(claim) =>
      case TrailVersionRecorded(v, rows) =>
        ContinuesExactly(t, a, v);
        KeyedRowsFit(a, t.rows, rows);
    }
  }

  lemma VersionsInSnoc(rows: seq<(Id, TrailVersion)>, v: TrailVersion, trailId: Id)
    ensures VersionsIn(rows + [(v.id, v)], trailId) == VersionsIn(rows, trailId) + (if v.trailId == trailId then [v] else [])
  {
    assert (rows + [(v.id, v)])[..|rows|] == rows;
  }

  lemma OtherTrailRuns(t: Trails, versions: seq<TrailVersion>, trailId: Id, v: TrailVersion, u: Trails)
    requires TrailRuns(t, versions, trailId) && v.trailId != trailId && v.id !in t.versions
    requires u.versions == t.versions[v.id := v] && u.heads == t.heads[v.trailId := (v.id, v.version)]
    ensures TrailRuns(u, versions, trailId)
  {}

  lemma OwnTrailRuns(t: Trails, versions: seq<TrailVersion>, v: TrailVersion, u: Trails)
    requires TrailRuns(t, versions, v.trailId) && v.version == |versions| + 1 && v.id !in t.versions
    requires u.versions == t.versions[v.id := v] && u.heads == t.heads[v.trailId := (v.id, v.version)]
    ensures TrailRuns(u, versions + [v], v.trailId)
  {}

  lemma TrailLogStep(t: Trails, a: Added, v: TrailVersion, u: Trails, after: Added)
    requires TrailLog(t, a) && ContinuesTrail(a, v) && v.id !in t.versions
    requires after.trailVersions == a.trailVersions + [(v.id, v)]
    requires u.versions == t.versions[v.id := v] && u.heads == t.heads[v.trailId := (v.id, v.version)]
    ensures TrailLog(u, after)
  {
    hide TrailRuns, VersionsIn;
    forall trailId
      ensures TrailRuns(u, VersionsIn(after.trailVersions, trailId), trailId)
    {
      var versions := VersionsIn(a.trailVersions, trailId);
      assert TrailRuns(t, versions, trailId);
      VersionsInSnoc(a.trailVersions, v, trailId);
      if v.trailId == trailId {
        OwnTrailRuns(t, versions, v, u);
      } else {
        OtherTrailRuns(t, versions, trailId, v, u);
        assert versions + [] == versions;
      }
    }
  }

  // ---- runs and plans ----

  /** Plan versions of a run count up. */
  ghost predicate PlanLog(p: Progress, a: Added)
  {
    forall runId :: PlansCount(p, PlansIn(a.plans, runId), runId)
  }

  /** These are the plans of the run, in version order. */
  ghost predicate PlansCount(p: Progress, plans: seq<Plan>, runId: Id)
  {
    && (forall j :: 0 <= j < |plans| ==>
          plans[j].version == j + 1 && plans[j].runId == runId && plans[j].id in p.plans && p.plans[plans[j].id] == plans[j])
    && (forall id :: id in p.plans && p.plans[id].runId == runId ==> p.plans[id].id == id && p.plans[id] in plans)
  }

  lemma NextVersionExactly(p: Progress, plans: seq<Plan>, runId: Id, version: nat)
    requires PlansCount(p, plans, runId)
    ensures NextVersion(p.plans, runId, version) <==> version == |plans| + 1
  {
    var n := |plans|;
    if n > 0 {
      assert plans[n - 1].id in p.plans && p.plans[plans[n - 1].id].version == n;
    }
    forall id | id in p.plans && p.plans[id].runId == runId
      ensures 1 <= p.plans[id].version <= n
    {
      var j :| 0 <= j < n && plans[j] == p.plans[id];
    }
  }

  lemma CurrentPlanExactly(p: Progress, plans: seq<Plan>, runId: Id, planId: Id)
    requires PlansCount(p, plans, runId)
    ensures IsCurrentPlan(p.plans, runId, planId) <==> planId in p.plans && p.plans[planId].runId == runId && p.plans[planId].version == |plans|
  {
    var n := |plans|;
    forall id | id in p.plans && p.plans[id].runId == runId
      ensures 1 <= p.plans[id].version <= n && p.plans[id] == plans[p.plans[id].version - 1] && p.plans[id].id == id
    {
      var j :| 0 <= j < n && plans[j] == p.plans[id];
    }
    if IsCurrentPlan(p.plans, runId, planId) {
      var last := plans[n - 1];
      assert last.id in p.plans && p.plans[last.id] == last;
    }
  }

  lemma SubtaskStep(planId: Id, start: map<Id, Subtask>, subtasks: seq<Subtask>, n: nat)
    requires n < |subtasks|
    ensures Fold(SubtaskRow(planId), start, subtasks[..n + 1])
         == if Fold(SubtaskRow(planId), start, subtasks[..n]).Raised? || subtasks[n].planId != planId then Raised
            else AddUnique(Fold(SubtaskRow(planId), start, subtasks[..n]).value, subtasks[n].id, subtasks[n])
  {
    assert subtasks[..n + 1] == subtasks[..n] + [subtasks[n]];
    FoldSnoc(SubtaskRow(planId), start, subtasks[..n], subtasks[n]);
  }

  lemma {:induction false} SubtasksFold(planId: Id, start: map<Id, Subtask>, plan: Plan, n: nat)
    requires n <= |plan.subtasks|
    ensures Fold(SubtaskRow(planId), start, plan.subtasks[..n])
         == if forall i :: 0 <= i < n ==> plan.subtasks[i].planId == planId then AddRows(start, SubtaskRows(plan)[..n]) else Raised
  {
    hide Fold, SubtaskRow;
    if n == 0 {
      EmptyFolds(planId, start, plan.subtasks[..0], SubtaskRows(plan)[..0]);
    } else {
      SubtasksFold(planId, start, plan, n - 1);
      SubtaskStep(planId, start, plan.subtasks, n - 1);
      RowStep(start, SubtaskRows(plan), n - 1);
    }
  }

  lemma EmptyFolds(planId: Id, start: map<Id, Subtask>, none: seq<Subtask>, rows: seq<(Id, Subtask)>)
    requires none == [] && rows == []
    ensures Fold(SubtaskRow(planId), start, none) == Ok(start) && AddRows(start, rows) == Ok(start)
  {}

  lemma RowStep<K, V>(start: map<K, V>, rows: seq<(K, V)>, n: nat)
    requires n < |rows|
    ensures AddRows(start, rows[..n + 1])
         == if AddRows(start, rows[..n]).Raised? then Raised else AddUnique(AddRows(start, rows[..n]).value, rows[n].0, rows[n].1)
  {
    assert rows[..n + 1] == rows[..n] + [rows[n]];
    FoldSnoc(AddRow(), start, rows[..n], rows[n]);
  }

  lemma SubtasksFit(a: Added, table: map<Id, Subtask>, plan: Plan)
    requires Holds(table, a.subtasks)
    ensures Fold(SubtaskRow(plan.id), table, plan.subtasks).Ok? <==>
      && (forall i :: 0 <= i < |plan.subtasks| ==> plan.subtasks[i].planId == plan.id && !Has(a.subtasks, plan.subtasks[i].id))
      && (forall i, j :: 0 <= i < j < |plan.subtasks| ==> plan.subtasks[i].id != plan.subtasks[j].id)
  {
    hide Holds, AddRows, Fold, Has, SubtaskRow;
    HoldsMeans(table, a.subtasks);
    var n, rows := |plan.subtasks|, SubtaskRows(plan);
    SubtasksFold(plan.id, table, plan, n);
    assert plan.subtasks[..n] == plan.subtasks && rows[..n] == rows;
    AddRowsExactly(table, rows);
    assert forall i :: 0 <= i < n ==> rows[i].0 == plan.subtasks[i].id;
  }

  lemma LaterExactly(e: ProgressEvent, x: ProgressEvent)
    ensures Later((e.at, e.id), (x.at, x.id)) <==> After(e, x)
  {}

  lemma AfterTransitive(x: ProgressEvent, y: ProgressEvent, z: ProgressEvent)
    requires After(y, x) && After(z, y)
    ensures After(z, x)
  {
    StringsAreOrdered();
  }

  /** Being later than the head of the run is being later than every earlier event on the same plan. */
  lemma LaterThanHead(p: Progress, a: Added, e: ProgressEvent)
    requires ProgressSound(p) && ProgressIs(p, a) && IsCurrentPlan(p.plans, e.runId, e.planId)
    ensures Advances(p, e) <==> forall id, x: ProgressEvent :: (id, x) in a.events && x.runId == e.runId && x.planId == e.planId ==> After(e, x)
  {
    hide Holds, PlansContiguous, BelongsToPlan, After, Later;
    HoldsMeans(p.events, a.events);
    if e.runId in p.heads {
      assert HeadIsGreatest(p, e.runId);
      var head := p.events[p.heads[e.runId].1];
      LaterExactly(e, head);
      assert (head.id, head) in a.events;
      if head.planId == e.planId ==> After(e, head) {
        forall id, x: ProgressEvent | (id, x) in a.events && x.runId == e.runId && x.planId == e.planId
          ensures After(e, x)
        {
          assert id in p.events && p.events[id] == x;
          OnHeadsPlan(p, e, head, id, x);
        }
      }
    } else {
      forall id, x: ProgressEvent | (id, x) in a.events
        ensures x.runId != e.runId
      {
        assert id in p.events && p.events[id] == x;
      }
    }
  }

  lemma OnHeadsPlan(p: Progress, e: ProgressEvent, head: ProgressEvent, id: Id, x: ProgressEvent)
    requires EventsBelong(p) && e.runId in p.heads && HeadIsGreatest(p, e.runId) && head == p.events[p.heads[e.runId].1]
    requires IsCurrentPlan(p.plans, e.runId, e.planId) && (head.planId == e.planId ==> After(e, head))
    requires id in p.events && p.events[id] == x && x.runId == e.runId && x.planId == e.planId
    ensures After(e, x)
  {
    hide After;
    if id != head.id {
      assert Precedes(p, x, head);
      if head.planId == e.planId {
        LaterExactly(head, x);
        AfterTransitive(x, head, e);
      } else {
        CurrentIsGreatest(p, e, head);
      }
    }
  }

  lemma CurrentIsGreatest(p: Progress, e: ProgressEvent, head: ProgressEvent)
    requires IsCurrentPlan(p.plans, e.runId, e.planId) && head.planId in p.plans && p.plans[head.planId].runId == e.runId && head.planId != e.planId
    ensures p.plans[e.planId].version >= p.plans[head.planId].version
  {}

  lemma BelongsExactly(p: Progress, a: Added, e: ProgressEvent)
    requires ProgressIs(p, a) && PlanLog(p, a)
    ensures BelongsToPlan(p, e) && IsCurrentPlan(p.plans, e.runId, e.planId) <==>
      && Has(a.runs, e.runId)
      && (exists plan: Plan :: (e.planId, plan) in a.plans && plan.runId == e.runId && plan.version == |PlansIn(a.plans, e.runId)|)
      && (exists subtask: Subtask :: (e.subtaskId, subtask) in a.subtasks && subtask.planId == e.planId)
  {
    hide Holds, Has, IsCurrentPlan;
    HoldsMeans(p.runs, a.runs);
    HoldsMeans(p.plans, a.plans);
    HoldsMeans(p.subtasks, a.subtasks);
    assert PlansCount(p, PlansIn(a.plans, e.runId), e.runId);
    CurrentPlanExactly(p, PlansIn(a.plans, e.runId), e.runId, e.planId);
    hide PlansCount;
    if e.planId in p.plans {
      assert (e.planId, p.plans[e.planId]) in a.plans;
    }
    if e.subtaskId in p.subtasks {
      assert (e.subtaskId, p.subtasks[e.subtaskId]) in a.subtasks;
    }
  }

  lemma ProgressFitsExactly(b: Builders, s: Expected, a: Added, governing: Digest, c: Content)
    requires OfProgress(c) && ProgressIs(s.progress, a) && PlanLog(s.progress, a) && ProgressSound(s.progress)
    ensures Apply(b, s, governing, c).Ok? <==> ProgressContentFits(a, governing, c)
  {
    hide Holds, Has, PlanLog, ProgressSound, NextVersion, IsCurrentPlan, BelongsToPlan, Advances, Fold, After;
    var p := s.progress;
    HoldsMeans(p.runs, a.runs);
    HoldsMeans(p.runEvents, a.runEvents);
    HoldsMeans(p.plans, a.plans);
    HoldsMeans(p.events, a.events);
    match c {
      case RunCreated(run) =>
      case RunEventAppended(e) =>
      case PlanRecorded(plan) =>
        PlansOfRun(p, a, plan.runId);
        NextVersionExactly(p, PlansIn(a.plans, plan.runId), plan.runId, plan.version);
        SubtasksFit(a, p.subtasks, plan);
      case ProgressEventAppended(e) =>
        BelongsExactly(p, a, e);
        AdvancingIsCurrent(p, e);
        if IsCurrentPlan(p.plans, e.runId, e.planId) {
          LaterThanHead(p, a, e);
        }
    }
  }

  lemma PlansOfRun(p: Progress, a: Added, runId: Id)
    requires PlanLog(p, a)
    ensures PlansCount(p, PlansIn(a.plans, runId), runId)
  {}

  lemma AdvancingIsCurrent(p: Progress, e: ProgressEvent)
    ensures Advances(p, e) ==> IsCurrentPlan(p.plans, e.runId, e.planId)
  {}

  lemma PlanLogStep(p: Progress, a: Added, plan: Plan, q: Progress, after: Added)
    requires PlanLog(p, a) && plan.id !in p.plans && plan.version == |PlansIn(a.plans, plan.runId)| + 1
    requires after.plans == a.plans + [(plan.id, plan)] && q.plans == p.plans[plan.id := plan]
    ensures PlanLog(q, after)
  {
    forall runId
      ensures PlansCount(q, PlansIn(after.plans, runId), runId)
    {
      assert PlansCount(p, PlansIn(a.plans, runId), runId);
      assert after.plans[..|after.plans| - 1] == a.plans;
    }
  }

  // ---- evaluators ----

  /** The head of the replay is the candidate of the last accepted succession. */
  ghost predicate SuccessionLog(e: Evaluators, a: Added)
  {
    var path := SuccessionsIn(a.successions);
    && (e.succeeded <==> path != [])
    && e.head == if path == [] then None else Some(path[|path| - 1].candidate)
  }

  lemma OnlyRootExactly(versions: map<Id, EvaluatorVersion>, rows: seq<(Id, EvaluatorVersion)>, root: Id)
    requires Holds(versions, rows)
    ensures Roots(versions) == {root} <==> OnlyRoot(rows, root)
  {
    hide Holds;
    HoldsMeans(versions, rows);
    if Roots(versions) == {root} {
      assert root in Roots(versions);
      assert (root, versions[root]) in rows;
      forall id, v: EvaluatorVersion | (id, v) in rows && v.predecessor.None?
        ensures id == root
      {
        assert id in Roots(versions);
      }
    }
    if OnlyRoot(rows, root) {
      var v: EvaluatorVersion :| (root, v) in rows && v.predecessor.None?;
      forall id ensures id in Roots(versions) <==> id == root
      {
        if id in versions {
          assert (id, versions[id]) in rows;
        }
      }
    }
  }

  lemma EvaluatorFitsExactly(b: Builders, s: Expected, a: Added, governing: Digest, c: Content)
    requires OfEvaluators(c) && Holds(s.progress.runs, a.runs) && EvaluatorsAre(s.evaluators, a) && SuccessionLog(s.evaluators, a)
    ensures Apply(b, s, governing, c).Ok? <==> EvaluatorContentFits(a, governing, c)
  {
    hide Holds, Has, Roots, OnlyRoot;
    var e := s.evaluators;
    HoldsMeans(s.progress.runs, a.runs);
    HoldsMeans(e.audits, a.audits);
    HoldsMeans(e.measurements, a.measurements);
    HoldsMeans(e.versions, a.evaluators);
    HoldsMeans(e.successions, a.successions);
    if c.SuccessionDecided? {
      OnlyRootExactly(e.versions, a.evaluators, c.succession.predecessor);
    }
  }

  // ---- campaigns ----

  lemma ManifestStep(governing: Digest, start: map<Id, Manifest>, partitions: seq<Manifest>, n: nat)
    requires n < |partitions|
    ensures Fold(ManifestRow(governing), start, partitions[..n + 1])
         == if Fold(ManifestRow(governing), start, partitions[..n]).Raised? || partitions[n].governing != governing then Raised
            else AddUnique(Fold(ManifestRow(governing), start, partitions[..n]).value, partitions[n].id, partitions[n])
  {
    assert partitions[..n + 1] == partitions[..n] + [partitions[n]];
    FoldSnoc(ManifestRow(governing), start, partitions[..n], partitions[n]);
  }

  lemma NoManifests(governing: Digest, start: map<Id, Manifest>, none: seq<Manifest>, rows: seq<(Id, Manifest)>)
    requires none == [] && rows == []
    ensures Fold(ManifestRow(governing), start, none) == Ok(start) && AddRows(start, rows) == Ok(start)
  {}

  lemma {:induction false} ManifestsFold(governing: Digest, start: map<Id, Manifest>, c: Campaign, n: nat)
    requires n <= |c.partitions|
    ensures Fold(ManifestRow(governing), start, c.partitions[..n])
         == if forall i :: 0 <= i < n ==> c.partitions[i].governing == governing then AddRows(start, ManifestRows(c)[..n]) else Raised
  {
    hide Fold, ManifestRow;
    if n == 0 {
      NoManifests(governing, start, c.partitions[..0], ManifestRows(c)[..0]);
    } else {
      ManifestsFold(governing, start, c, n - 1);
      ManifestStep(governing, start, c.partitions, n - 1);
      RowStep(start, ManifestRows(c), n - 1);
    }
  }

  lemma ManifestsFit(a: Added, table: map<Id, Manifest>, governing: Digest, c: Campaign)
    requires Holds(table, a.partitions)
    ensures Fold(ManifestRow(governing), table, c.partitions).Ok? <==>
      && (forall i :: 0 <= i < |c.partitions| ==> c.partitions[i].governing == governing && !Has(a.partitions, c.partitions[i].id))
      && (forall i, j :: 0 <= i < j < |c.partitions| ==> c.partitions[i].id != c.partitions[j].id)
  {
    hide Holds, AddRows, Fold, Has, ManifestRow;
    HoldsMeans(table, a.partitions);
    var n, rows := |c.partitions|, ManifestRows(c);
    ManifestsFold(governing, table, c, n);
    assert c.partitions[..n] == c.partitions && rows[..n] == rows;
    AddRowsExactly(table, rows);
    assert forall i :: 0 <= i < n ==> rows[i].0 == c.partitions[i].id;
  }

  lemma BudgetsFit(a: Added, table: map<Id, BudgetRow>, c: Campaign)
    requires Holds(table, a.budgets)
    ensures AddRows(table, BudgetRows(c)).Ok? <==>
      && (forall i :: 0 <= i < |c.budgets| ==> !Has(a.budgets, c.budgets[i].id))
      && (forall i, j :: 0 <= i < j < |c.budgets| ==> c.budgets[i].id != c.budgets[j].id)
  {
    hide Holds, AddRows, Has;
    HoldsMeans(table, a.budgets);
    AddRowsExactly(table, BudgetRows(c));
    assert forall i :: 0 <= i < |c.budgets| ==> BudgetRows(c)[i].0 == c.budgets[i].id;
  }

  lemma IterationExactly(h: Harness, a: Added, it: Iteration)
    requires HarnessIs(h, a)
    ensures IterationBinds(h, it) <==> exists m: Manifest, budget: BudgetRow ::
      (it.manifestId, m) in a.partitions && (it.budgetId, budget) in a.budgets && IteratesOn(a, it, m, budget)
  {
    hide Holds, Has;
    HoldsMeans(h.campaigns, a.campaigns);
    HoldsMeans(h.partitions, a.partitions);
    HoldsMeans(h.budgets, a.budgets);
    if IterationBinds(h, it) {
      assert (it.manifestId, h.partitions[it.manifestId]) in a.partitions && (it.budgetId, h.budgets[it.budgetId]) in a.budgets;
      assert IteratesOn(a, it, h.partitions[it.manifestId], h.budgets[it.budgetId]);
    }
  }

  lemma ResultExactly(h: Harness, a: Added, observationId: Id, manifestId: Id, variant: string, result: Metric)
    requires HarnessIs(h, a)
    ensures ResultBinds(h, observationId, manifestId, variant, result) <==> exists o: Observation, m: Manifest ::
      (observationId, o) in a.observations && (manifestId, m) in a.partitions && MeasuresIn(o, m, manifestId, variant, result)
  {
    hide Holds;
    HoldsMeans(h.observations, a.observations);
    HoldsMeans(h.partitions, a.partitions);
    if ResultBinds(h, observationId, manifestId, variant, result) {
      assert (observationId, h.observations[observationId]) in a.observations && (manifestId, h.partitions[manifestId]) in a.partitions;
      assert MeasuresIn(h.observations[observationId], h.partitions[manifestId], manifestId, variant, result);
    }
  }

  lemma ReportExactly(b: Builders, h: Harness, a: Added, d: HarnessDecision, report: Report)
    requires HarnessIs(h, a)
    ensures ReportBinds(b.campaignHash, h, d, report) <==>
      && d.campaignId == report.campaign.id
      && (d.campaignId, CampaignRow(report.campaign.id, report.campaign.governing, report.campaign.body, b.campaignHash(report.campaign))) in a.campaigns
      && (forall i :: 0 <= i < |report.resultIds| ==> Has(a.metrics, report.resultIds[i]))
      && (forall i :: 0 <= i < |report.confoundIds| ==> Has(a.confounds, report.confoundIds[i]))
  {
    hide Holds, Has;
    HoldsMeans(h.campaigns, a.campaigns);
    HoldsMeans(h.metrics, a.metrics);
    HoldsMeans(h.confounds, a.confounds);
  }

  lemma HarnessFitsExactly(b: Builders, h: Harness, a: Added, governing: Digest, p: HarnessProposal)
    requires HarnessIs(h, a)
    ensures ApplyHarness(b.campaignHash, h, governing, p).Ok? <==> HarnessContentFits(b, a, governing, p)
  {
    hide Holds, Has, IterationBinds, ResultBinds, ReportBinds, Fold, AddRows, IteratesOn, MeasuresIn;
    HoldsMeans(h.campaigns, a.campaigns);
    HoldsMeans(h.observations, a.observations);
    HoldsMeans(h.metrics, a.metrics);
    HoldsMeans(h.confounds, a.confounds);
    HoldsMeans(h.decisions, a.decisions);
    match p {
      case CreateCampaign(c) => ManifestsFit(a, h.partitions, governing, c); BudgetsFit(a, h.budgets, c);
      case RecordIteration(it, _) => IterationExactly(h, a, it);
      case RecordProtectedResult(o, m, variant, result, _) => ResultExactly(h, a, o, m, variant, result);
      case RecordConfound(_) =>
      case DecideCampaign(d, report) => ReportExactly(b, h, a, d, report);
    }
  }

  lemma TransitionFitsExactly(s: Expected, a: Added, governing: Digest, t: Transition, run: Run, audit: EvaluatorAudit, m: Measurement)
    requires Holds(s.progress.runs, a.runs) && EvaluatorsAre(s.evaluators, a)
    ensures ApplyTransition(s, governing, t, run, audit, m).Ok? <==> TransitionFits(a, governing, t, run, audit, m)
  {
    hide Holds, Has;
    HoldsMeans(s.progress.runs, a.runs);
    HoldsMeans(s.evaluators.audits, a.audits);
    HoldsMeans(s.evaluators.measurements, a.measurements);
  }

  // ---- the whole log ----

  /** The replayed state is what the rows say. */
  ghost predicate Mirrors(s: Expected, a: Added)
  {
    && TrailsAre(s.trails, a) && ProgressIs(s.progress, a) && EvaluatorsAre(s.evaluators, a) && HarnessIs(s.harness, a)
    && TrailLog(s.trails, a) && PlanLog(s.progress, a) && SuccessionLog(s.evaluators, a)
  }

  lemma FitsExactly(b: Builders, s: Expected, a: Added, governing: Digest, c: Content)
    requires Mirrors(s, a) && ProgressSound(s.progress)
    ensures Apply(b, s, governing, c).Ok? <==> Fits(b, a, governing, c)
  {
    hide TrailsAre, HarnessIs, TrailLog, PlanLog, SuccessionLog, ProgressSound, EvaluatorsAre, Holds;
    hide TrailContentFits, ProgressContentFits, EvaluatorContentFits, HarnessContentFits, TransitionFits, ApplyTransition, ApplyHarness;
    if OfTrails(c) {
      TrailFitsExactly(b, s, a, governing, c);
    } else if OfProgress(c) {
      ProgressFitsExactly(b, s, a, governing, c);
    } else if OfEvaluators(c) {
      EvaluatorFitsExactly(b, s, a, governing, c);
    } else {
      match c {
        case HarnessStep(p) => HarnessFitsExactly(b, s.harness, a, governing, p);
        case PolicyTransitioned(t, run, audit, m) => TransitionFitsExactly(s, a, governing, t, run, audit, m);
        case _ =>
      }
    }
  }

  lemma SameTrailLog(t: Trails, a: Added, u: Trails, after: Added)
    requires TrailLog(t, a) && u.versions == t.versions && u.heads == t.heads && after.trailVersions == a.trailVersions
    ensures TrailLog(u, after)
  {
    forall trailId
      ensures TrailRuns(u, VersionsIn(after.trailVersions, trailId), trailId)
    {
      assert TrailRuns(t, VersionsIn(a.trailVersions, trailId), trailId);
    }
  }

  lemma SamePlanLog(p: Progress, a: Added, q: Progress, after: Added)
    requires PlanLog(p, a) && q.plans == p.plans && after.plans == a.plans
    ensures PlanLog(q, after)
  {
    forall runId
      ensures PlansCount(q, PlansIn(after.plans, runId), runId)
    {
      assert PlansCount(p, PlansIn(a.plans, runId), runId);
    }
  }

  lemma SuccessionLogStep(e: Evaluators, a: Added, d: Succession, f: Evaluators, after: Added)
    requires SuccessionLog(e, a) && after.successions == a.successions + [(d.id, d)]
    requires f.succeeded == (e.succeeded || d.accepted) && f.head == (if d.accepted then Some(d.candidate) else e.head)
    ensures SuccessionLog(f, after)
  {
    assert after.successions[..|after.successions| - 1] == a.successions;
  }

  lemma AppliedVersions(b: Builders, s: Expected, governing: Digest, c: Content, u: Expected)
    requires Apply(b, s, governing, c) == Ok(u)
    ensures if c.TrailVersionRecorded? then
        && c.version.id !in s.trails.versions && u.trails.versions == s.trails.versions[c.version.id := c.version]
        && u.trails.heads == s.trails.heads[c.version.trailId := (c.version.id, c.version.version)]
      else u.trails.versions == s.trails.versions && u.trails.heads == s.trails.heads
  {
    hide AddRows, Continues, ApplyHarness, AddRun, AddRunEvent, AddPlan, AddProgressEvent, AddAudit, AddMeasurement, AddEvaluator, AddSuccession;
  }

  lemma AppliedPlans(b: Builders, s: Expected, governing: Digest, c: Content, u: Expected)
    requires Apply(b, s, governing, c) == Ok(u)
    ensures if c.PlanRecorded? then c.plan.id !in s.progress.plans && u.progress.plans == s.progress.plans[c.plan.id := c.plan]
      else u.progress.plans == s.progress.plans
  {
    hide AddVersion, AddEvidence, AddClaim, ApplyHarness, NextVersion, Advances, BelongsToPlan, AddAudit, AddMeasurement, AddEvaluator, AddSuccession, Fold;
  }

  lemma AppliedHead(b: Builders, s: Expected, governing: Digest, c: Content, u: Expected)
    requires Apply(b, s, governing, c) == Ok(u)
    ensures if c.SuccessionDecided? then
        && u.evaluators.succeeded == (s.evaluators.succeeded || c.succession.accepted)
        && u.evaluators.head == (if c.succession.accepted then Some(c.succession.candidate) else s.evaluators.head)
      else u.evaluators.succeeded == s.evaluators.succeeded && u.evaluators.head == s.evaluators.head
  {
    hide AddVersion, AddEvidence, AddClaim, ApplyHarness, AddRun, AddRunEvent, AddPlan, AddProgressEvent, Roots;
  }

  lemma AddedRows(b: Builders, manifests: map<Id, Manifest>, c: Content)
    ensures
      var a := AddedBy(b, manifests, c);
      && a.trailVersions == (if c.TrailVersionRecorded? then [(c.version.id, c.version)] else [])
      && a.plans == (if c.PlanRecorded? then [(c.plan.id, c.plan)] else [])
      && a.successions == (if c.SuccessionDecided? then [(c.succession.id, c.succession)] else [])
  {
    hide RowOfCampaign, BudgetRows, ManifestRows, SubtaskRows, KeyedRows, ObservationOf;
  }

  ghost predicate Logs(s: Expected, a: Added)
  {
    TrailLog(s.trails, a) && PlanLog(s.progress, a) && SuccessionLog(s.evaluators, a)
  }

  lemma LogsKept(b: Builders, s: Expected, a: Added, manifests: map<Id, Manifest>, governing: Digest, c: Content, u: Expected)
    requires Logs(s, a) && Apply(b, s, governing, c) == Ok(u) && Fits(b, a, governing, c)
    ensures Logs(u, Join(a, AddedBy(b, manifests, c)))
  {
    var added := AddedBy(b, manifests, c);
    AppliedVersions(b, s, governing, c, u);
    AppliedPlans(b, s, governing, c, u);
    AppliedHead(b, s, governing, c, u);
    AddedRows(b, manifests, c);
    JoinedRows(a, added);
    hide TrailLog, PlanLog, SuccessionLog, Apply, AddedBy, Join, Has, HarnessContentFits, TransitionFits, ContinuesTrail;
    if c.TrailVersionRecorded? {
      TrailLogStep(s.trails, a, c.version, u.trails, Join(a, added));
    } else {
      SameTrailLog(s.trails, a, u.trails, Join(a, added));
    }
    if c.PlanRecorded? {
      PlanLogStep(s.progress, a, c.plan, u.progress, Join(a, added));
    } else {
      SamePlanLog(s.progress, a, u.progress, Join(a, added));
    }
    if c.SuccessionDecided? {
      SuccessionLogStep(s.evaluators, a, c.succession, u.evaluators, Join(a, added));
    } else {
      SameSuccessionLog(s.evaluators, a, u.evaluators, Join(a, added));
    }
  }

  lemma JoinedRows(a: Added, c: Added)
    ensures Join(a, c).trailVersions == a.trailVersions + c.trailVersions
    ensures Join(a, c).plans == a.plans + c.plans && Join(a, c).successions == a.successions + c.successions
    ensures a.trailVersions + [] == a.trailVersions && a.plans + [] == a.plans && a.successions + [] == a.successions
  {}

  lemma SameSuccessionLog(e: Evaluators, a: Added, f: Evaluators, after: Added)
    requires SuccessionLog(e, a) && f.succeeded == e.succeeded && f.head == e.head && after.successions == a.successions
    ensures SuccessionLog(f, after)
  {}

  lemma NothingLogged()
    ensures Logs(NOTHING_REPLAYED, NOTHING_ADDED)
  {}

  lemma JoinNothing(a: Added)
    ensures Join(a, NOTHING_ADDED) == a
  {}

  lemma MirrorsWhole(b: Builders, passes: Verdict, records: seq<Entry>)
    requires Replay(b, passes, records).Ok? && Logs(Replay(b, passes, records).value, AddedAll(b, records))
    ensures Mirrors(Replay(b, passes, records).value, AddedAll(b, records)) && ProgressSound(Replay(b, passes, records).value.progress)
  {
    hide Replay, AddedAll, TrailsAre, ProgressIs, EvaluatorsAre, HarnessIs, TrailLog, PlanLog, SuccessionLog, TrailsSound, ProgressSound, HarnessSound;
    TablesAreTheLog(b, passes, records);
    ReplayIsSound(b, passes, records);
  }

  lemma AllFitSnoc(b: Builders, passes: Verdict, records: seq<Entry>)
    requires records != []
    ensures
      var n := |records| - 1;
      AllFit(b, passes, records) <==> AllFit(b, passes, records[..n]) && (TakesEffect(records[n]) ==>
        passes(records[n].sequence) && Fits(b, AddedAll(b, records[..n]), records[n].governing, records[n].proposal.content))
  {
    hide Fits, AddedAll;
    var n := |records| - 1;
    forall i | 0 <= i < n
      ensures records[..n][..i] == records[..i]
    {}
    if AllFit(b, passes, records) {
      forall i | 0 <= i < n && TakesEffect(records[..n][i])
        ensures passes(records[..n][i].sequence) && Fits(b, AddedAll(b, records[..n][..i]), records[..n][i].governing, records[..n][i].proposal.content)
      {
        assert records[..n][i] == records[i];
      }
    }
    if AllFit(b, passes, records[..n]) {
      forall i | 0 <= i < n && TakesEffect(records[i])
        ensures passes(records[i].sequence) && Fits(b, AddedAll(b, records[..i]), records[i].governing, records[i].proposal.content)
      {
        assert records[..n][i] == records[i];
      }
    }
  }

  /** The replay accepts a log exactly when every record that takes effect passes its verdict and fits the
      rows of the records before it. */
  lemma {:induction false} ReplayAcceptsExactly(b: Builders, passes: Verdict, records: seq<Entry>)
    ensures Replay(b, passes, records).Ok? <==> AllFit(b, passes, records)
    ensures Replay(b, passes, records).Ok? ==> Logs(Replay(b, passes, records).value, AddedAll(b, records))
  {
    hide AllFit, Logs, Apply, Fits, AddedBy, Join, Replay;
    if records == [] {
      NothingLogged();
      NothingFits(b, passes, records);
    } else {
      var n := |records| - 1;
      var front, r := records[..n], records[n];
      ReplayAcceptsExactly(b, passes, front);
      AllFitSnoc(b, passes, records);
      ReplaySnoc(b, passes, records);
      if Replay(b, passes, front).Ok? {
        var before, a := Replay(b, passes, front).value, AddedAll(b, front);
        AddedSnoc(b, records);
        JoinNothing(a);
        if TakesEffect(r) {
          MirrorsWhole(b, passes, front);
          FitsExactly(b, before, a, r.governing, r.proposal.content);
          if Fits(b, a, r.governing, r.proposal.content) {
            LogsKept(b, before, a, RowMap(a.partitions), r.governing, r.proposal.content, Apply(b, before, r.governing, r.proposal.content).value);
          }
        }
      }
    }
  }

  lemma NothingFits(b: Builders, passes: Verdict, records: seq<Entry>)
    requires records == []
    ensures AllFit(b, passes, records) && Replay(b, passes, records) == Ok(NOTHING_REPLAYED) && AddedAll(b, records) == NOTHING_ADDED
  {}

  lemma ReplaySnoc(b: Builders, passes: Verdict, records: seq<Entry>)
    requires records != []
    ensures
      var n := |records| - 1;
      var before := Replay(b, passes, records[..n]);
      Replay(b, passes, records) ==
        if before.Raised? then Raised
        else if !TakesEffect(records[n]) then before
        else if !passes(records[n].sequence) then Raised
        else Apply(b, before.value, records[n].governing, records[n].proposal.content)
  {
    hide Apply;
  }

  lemma AddedSnoc(b: Builders, records: seq<Entry>)
    requires records != []
    ensures
      var n, front := |records| - 1, AddedAll(b, records[..|records| - 1]);
      AddedAll(b, records) == Join(front, if TakesEffect(records[n]) then AddedBy(b, RowMap(front.partitions), records[n].proposal.content) else NOTHING_ADDED)
  {}

  // ---- verified workspaces ----

  /** The stored evaluator head: what the last accepted succession left, or before any nothing or the only
      root. */
  ghost predicate HeadFits(a: Added, head: Option<Id>)
  {
    var path := SuccessionsIn(a.successions);
    if path != [] then head == Some(path[|path| - 1].candidate) else head.None? || OnlyRoot(a.evaluators, head.value)
  }

  /** The stored tables hold exactly the rows of the log, and its last heads. */
  ghost predicate TablesHold(t: Tables, a: Added)
  {
    && TrailsAre(t.trails, a) && ProgressIs(t.progress, a) && HarnessIs(t.harness, a)
    && Holds(t.audits, a.audits) && Holds(t.measurements, a.measurements) && Holds(t.versions, a.evaluators) && Holds(t.successions, a.successions)
    && HeadFits(a, t.evaluatorHead)
  }

  lemma SameByRows(s: Expected, a: Added, t: Tables)
    requires Mirrors(s, a)
    ensures SameTables(s, t) && HeadAllowed(s.evaluators, t.evaluatorHead) <==> TablesHold(t, a)
  {
    hide RowMap, DistinctRows, TrailLog, PlanLog, Roots, OnlyRoot;
    if t.evaluatorHead.Some? {
      OnlyRootExactly(s.evaluators.versions, a.evaluators, t.evaluatorHead.value);
    }
  }

  /** A workspace verifies against a log exactly when the log is acceptable, the tables hold its rows, the
      stored policies decode, and both policy replays pass. */
  lemma VerifiedExactly(b: Builders, passes: Verdict, records: seq<Entry>, t: Tables)
    ensures Verified(b, passes, records, t) <==>
      && AllFit(b, passes, records) && TablesHold(t, AddedAll(b, records))
      && AllDecode(b.policyHash, t.policies, t.active)
      && HistoricalSequence(PolicyViews(records), RowMap(PolicyRows(t.policies)), t.active)
      && ProjectionSequence(t.policies, t.active, TransitionsOf(PolicyViews(records)))
  {
    hide Replay, AllFit, TablesHold, AddedAll, HistoricalSequence, ProjectionSequence, SameTables, HeadAllowed, AllDecode, Mirrors, TransitionsOf;
    ReplayAcceptsExactly(b, passes, records);
    if Replay(b, passes, records).Ok? {
      MirrorsWhole(b, passes, records);
      SameByRows(Replay(b, passes, records).value, AddedAll(b, records), t);
      TransitionsAreTheViews(b, passes, records);
    }
  }
}
