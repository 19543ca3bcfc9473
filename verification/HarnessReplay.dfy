/** Harness campaigns as the audit replay rebuilds them. */
module HarnessReplay {
  import opened Common
  import opened ReplayTables

  datatype Manifest = Manifest(id: Id, campaignId: Id, taskIds: seq<Id>, partition: string, governing: Digest, body: string)

  datatype BudgetItem = BudgetItem(id: Id, variant: string, body: string)

  datatype Campaign = Campaign(id: Id, partitions: seq<Manifest>, budgets: seq<BudgetItem>, governing: Digest, body: string)

  datatype CampaignRow = CampaignRow(id: Id, governing: Digest, body: string, canonicalHash: Digest)

  datatype BudgetRow = BudgetRow(id: Id, campaignId: Id, variant: string, governing: Digest, body: string)

  datatype Iteration = Iteration(
    observationId: Id, manifestId: Id, taskId: Id, partition: string, variant: string, budgetId: Id,
    outputHash: Digest, resultId: Option<Id>, outcome: string, body: string)

  datatype Observation = Observation(
    id: Id, campaignId: Id, manifestId: Id, taskId: Id, variant: string, budgetId: Id,
    outputHash: Digest, resultId: Option<Id>, outcome: string, governing: Digest, body: string)

  datatype Metric = Metric(id: Id, campaignId: Id, taskId: Id, outputHash: Digest, outcome: string, body: string)

  datatype Confound = Confound(id: Id, campaignId: Id, governing: Digest, body: string)

  datatype Report = Report(campaign: Campaign, resultIds: seq<Id>, confoundIds: seq<Id>)

  datatype HarnessDecision = HarnessDecision(id: Id, campaignId: Id, status: string, governing: Digest, body: string)

  datatype DecisionRow = DecisionRow(decision: HarnessDecision, resultIds: seq<Id>, confoundIds: seq<Id>)

  datatype HarnessProposal =
    | CreateCampaign(campaign: Campaign)
    | RecordIteration(iteration: Iteration, governing: Digest)
    | RecordProtectedResult(observationId: Id, manifestId: Id, variant: string, result: Metric, governing: Digest)
    | RecordConfound(confound: Confound)
    | DecideCampaign(decision: HarnessDecision, report: Report)

  datatype Harness = Harness(
    campaigns: map<Id, CampaignRow>, partitions: map<Id, Manifest>, budgets: map<Id, BudgetRow>,
    observations: map<Id, Observation>, metrics: map<Id, Metric>, confounds: map<Id, Confound>,
    decisions: map<Id, DecisionRow>, heads: map<Id, (Id, string)>)

  const NO_HARNESS := Harness(map[], map[], map[], map[], map[], map[], map[], map[])

  type CampaignHash = Campaign -> Digest

  function RowOfCampaign(hash: CampaignHash, c: Campaign): CampaignRow
  {
    CampaignRow(c.id, c.governing, c.body, hash(c))
  }

  function ManifestRow(governing: Digest): (map<Id, Manifest>, Manifest) -> Result<map<Id, Manifest>>
  {
    (partitions: map<Id, Manifest>, m: Manifest) => if m.governing != governing then Raised else AddUnique(partitions, m.id, m)
  }

  function BudgetRows(c: Campaign): seq<(Id, BudgetRow)>
  {
    seq(|c.budgets|, i requires 0 <= i < |c.budgets| =>
      (c.budgets[i].id, BudgetRow(c.budgets[i].id, c.id, c.budgets[i].variant, c.governing, c.budgets[i].body)))
  }

  function AddCampaign(hash: CampaignHash, h: Harness, governing: Digest, c: Campaign): Result<Harness>
  {
    if c.governing != governing || c.id in h.campaigns then Raised
    else
      var partitions := Fold(ManifestRow(governing), h.partitions, c.partitions);
      var budgets := AddRows(h.budgets, BudgetRows(c));
      if partitions.Raised? || budgets.Raised? then Raised
      else Ok(h.(campaigns := h.campaigns[c.id := RowOfCampaign(hash, c)], partitions := partitions.value, budgets := budgets.value))
  }

  predicate IterationBinds(h: Harness, it: Iteration)
  {
    && it.manifestId in h.partitions
    && var manifest := h.partitions[it.manifestId];
    && it.taskId in manifest.taskIds && it.partition == manifest.partition && manifest.campaignId in h.campaigns
    && it.budgetId in h.budgets && h.budgets[it.budgetId].campaignId == manifest.campaignId
    && h.budgets[it.budgetId].variant == it.variant
  }

  function AddObservation(h: Harness, governing: Digest, it: Iteration, named: Digest): Result<Harness>
  {
    if named != governing || !IterationBinds(h, it) || it.observationId in h.observations then Raised
    else
      var row := Observation(
        it.observationId, h.partitions[it.manifestId].campaignId, it.manifestId, it.taskId, it.variant, it.budgetId,
        it.outputHash, it.resultId, it.outcome, governing, it.body);
      Ok(h.(observations := h.observations[row.id := row]))
  }

  predicate ResultBinds(h: Harness, observationId: Id, manifestId: Id, variant: string, result: Metric)
  {
    && observationId in h.observations && manifestId in h.partitions
    && h.partitions[manifestId].campaignId == result.campaignId
    && var o := h.observations[observationId];
    && o.campaignId == result.campaignId && o.manifestId == manifestId && o.variant == variant
    && Measured(o, result)
  }

  /** The protected result is the one its observation announced. */
  predicate Measured(o: Observation, result: Metric)
  {
    && o.taskId == result.taskId && o.outputHash == result.outputHash
    && o.resultId == Some(result.id) && o.outcome == result.outcome
  }

  function AddMetric(h: Harness, governing: Digest, observationId: Id, manifestId: Id, variant: string, result: Metric, named: Digest): Result<Harness>
  {
    if named != governing || !ResultBinds(h, observationId, manifestId, variant, result) || result.id in h.metrics then Raised
    else Ok(h.(metrics := h.metrics[result.id := result]))
  }

  function AddConfound(h: Harness, governing: Digest, c: Confound): Result<Harness>
  {
    if c.governing != governing || c.campaignId !in h.campaigns || c.id in h.confounds then Raised
    else Ok(h.(confounds := h.confounds[c.id := c]))
  }

  predicate ReportBinds(hash: CampaignHash, h: Harness, d: HarnessDecision, report: Report)
  {
    && report.campaign.id in h.campaigns && d.campaignId == report.campaign.id
    && RowOfCampaign(hash, report.campaign) == h.campaigns[report.campaign.id]
    && (forall i :: 0 <= i < |report.resultIds| ==> report.resultIds[i] in h.metrics)
    && (forall i :: 0 <= i < |report.confoundIds| ==> report.confoundIds[i] in h.confounds)
  }

  function AddDecision(hash: CampaignHash, h: Harness, governing: Digest, d: HarnessDecision, report: Report): Result<Harness>
  {
    if d.governing != governing || !ReportBinds(hash, h, d, report) || d.id in h.decisions then Raised
    else
      Ok(h.(decisions := h.decisions[d.id := DecisionRow(d, report.resultIds, report.confoundIds)],
            heads := h.heads[d.campaignId := (d.id, d.status)]))
  }

  function ApplyHarness(hash: CampaignHash, h: Harness, governing: Digest, p: HarnessProposal): Result<Harness>
  {
    match p
    case CreateCampaign(c) => AddCampaign(hash, h, governing, c)
    case RecordIteration(it, named) => AddObservation(h, governing, it, named)
    case RecordProtectedResult(o, m, variant, result, named) => AddMetric(h, governing, o, m, variant, result, named)
    case RecordConfound(c) => AddConfound(h, governing, c)
    case DecideCampaign(d, report) => AddDecision(hash, h, governing, d, report)
  }

  // ---- what every replay keeps: every reference resolves ----

  ghost predicate ObservationSound(h: Harness, id: Id)
    requires id in h.observations
  {
    var o := h.observations[id];
    && o.id == id && o.manifestId in h.partitions && h.partitions[o.manifestId].campaignId == o.campaignId
    && o.taskId in h.partitions[o.manifestId].taskIds && o.campaignId in h.campaigns
    && o.budgetId in h.budgets && h.budgets[o.budgetId].campaignId == o.campaignId && h.budgets[o.budgetId].variant == o.variant
  }

  ghost predicate MetricSound(h: Harness, id: Id)
    requires id in h.metrics
  {
    exists o :: o in h.observations && h.observations[o].campaignId == h.metrics[id].campaignId && Measured(h.observations[o], h.metrics[id])
  }

  ghost predicate DecisionSound(h: Harness, id: Id)
    requires id in h.decisions
  {
    var row := h.decisions[id];
    && row.decision.id == id && row.decision.campaignId in h.campaigns && row.decision.campaignId in h.heads
    && (forall i :: 0 <= i < |row.resultIds| ==> row.resultIds[i] in h.metrics)
    && (forall i :: 0 <= i < |row.confoundIds| ==> row.confoundIds[i] in h.confounds)
  }

  ghost predicate HeadSound(h: Harness, campaignId: Id)
    requires campaignId in h.heads
  {
    var (id, status) := h.heads[campaignId];
    id in h.decisions && h.decisions[id].decision.campaignId == campaignId && h.decisions[id].decision.status == status
  }

  ghost predicate HarnessSound(h: Harness)
  {
    && (forall id :: id in h.budgets ==> h.budgets[id].campaignId in h.campaigns)
    && (forall id :: id in h.observations ==> ObservationSound(h, id))
    && (forall id :: id in h.metrics ==> MetricSound(h, id))
    && (forall id :: id in h.confounds ==> h.confounds[id].campaignId in h.campaigns)
    && (forall id :: id in h.decisions ==> DecisionSound(h, id))
    && (forall campaignId :: campaignId in h.heads ==> HeadSound(h, campaignId))
  }

  /** Tables that only grow. */
  ghost predicate Extends(h: Harness, g: Harness)
  {
    && (forall id :: id in h.campaigns ==> id in g.campaigns)
    && (forall id :: id in h.partitions ==> id in g.partitions && g.partitions[id] == h.partitions[id])
    && (forall id :: id in h.budgets ==> id in g.budgets && g.budgets[id] == h.budgets[id])
    && (forall id :: id in h.observations ==> id in g.observations && g.observations[id] == h.observations[id])
    && (forall id :: id in h.metrics ==> id in g.metrics && g.metrics[id] == h.metrics[id])
    && (forall id :: id in h.confounds ==> id in g.confounds && g.confounds[id] == h.confounds[id])
    && (forall id :: id in h.decisions ==> id in g.decisions && g.decisions[id] == h.decisions[id])
    && (forall id :: id in h.heads ==> id in g.heads)
  }

  lemma GrownObservation(h: Harness, g: Harness, id: Id)
    requires Extends(h, g) && id in h.observations && ObservationSound(h, id)
    ensures ObservationSound(g, id)
  {}

  lemma GrownMetric(h: Harness, g: Harness, id: Id)
    requires Extends(h, g) && id in h.metrics && MetricSound(h, id)
    ensures MetricSound(g, id)
  {}

  lemma GrownDecision(h: Harness, g: Harness, id: Id)
    requires Extends(h, g) && id in h.decisions && DecisionSound(h, id)
    ensures DecisionSound(g, id)
  {}

  lemma GrownHead(h: Harness, g: Harness, campaignId: Id)
    requires Extends(h, g) && campaignId in h.heads && HeadSound(h, campaignId) && g.heads[campaignId] == h.heads[campaignId]
    ensures HeadSound(g, campaignId)
  {}

  /** Growth keeps old rows sound; only the new ones and a new head are left to show. */
  lemma GrowthKeepsSound(h: Harness, g: Harness)
    requires HarnessSound(h) && Extends(h, g)
    requires forall id :: id in g.budgets && id !in h.budgets ==> g.budgets[id].campaignId in g.campaigns
    requires forall id :: id in g.observations && id !in h.observations ==> ObservationSound(g, id)
    requires forall id :: id in g.metrics && id !in h.metrics ==> MetricSound(g, id)
    requires forall id :: id in g.confounds && id !in h.confounds ==> g.confounds[id].campaignId in g.campaigns
    requires forall id :: id in g.decisions && id !in h.decisions ==> DecisionSound(g, id)
    requires forall c :: c in g.heads && (c !in h.heads || g.heads[c] != h.heads[c]) ==> HeadSound(g, c)
    ensures HarnessSound(g)
  {
    hide ObservationSound, MetricSound, DecisionSound, HeadSound;
    forall id | id in g.observations
      ensures ObservationSound(g, id)
    {
      if id in h.observations {
        GrownObservation(h, g, id);
      }
    }
    forall id | id in g.metrics
      ensures MetricSound(g, id)
    {
      if id in h.metrics {
        GrownMetric(h, g, id);
      }
    }
    forall id | id in g.decisions
      ensures DecisionSound(g, id)
    {
      if id in h.decisions {
        GrownDecision(h, g, id);
      }
    }
    forall c | c in g.heads
      ensures HeadSound(g, c)
    {
      if c in h.heads && g.heads[c] == h.heads[c] {
        GrownHead(h, g, c);
      }
    }
  }

  lemma {:induction false} ManifestsGrow(governing: Digest, start: map<Id, Manifest>, added: seq<Manifest>)
    requires Fold(ManifestRow(governing), start, added).Ok?
    ensures forall id :: id in start ==>
      id in Fold(ManifestRow(governing), start, added).value && Fold(ManifestRow(governing), start, added).value[id] == start[id]
  {
    if added != [] {
      FoldPrefix(ManifestRow(governing), start, added, |added| - 1);
      ManifestsGrow(governing, start, added[..|added| - 1]);
    }
  }

  lemma CampaignKeepsSound(hash: CampaignHash, h: Harness, governing: Digest, c: Campaign)
    requires HarnessSound(h) && AddCampaign(hash, h, governing, c).Ok?
    ensures HarnessSound(AddCampaign(hash, h, governing, c).value)
  {
    hide HarnessSound, ObservationSound, MetricSound, DecisionSound, HeadSound, Fold, AddRows;
    var g := AddCampaign(hash, h, governing, c).value;
    ManifestsGrow(governing, h.partitions, c.partitions);
    BudgetsGrow(h.budgets, c);
    GrowthKeepsSound(h, g);
  }

  lemma BudgetsGrow(start: map<Id, BudgetRow>, c: Campaign)
    requires AddRows(start, BudgetRows(c)).Ok?
    ensures
      var grown := AddRows(start, BudgetRows(c)).value;
      && (forall id :: id in start ==> id in grown && grown[id] == start[id])
      && (forall id :: id in grown && id !in start ==> grown[id].campaignId == c.id)
  {
    var rows := BudgetRows(c);
    AddRowsExactly(start, rows);
    RowMapKeys(rows);
    forall id | id in RowMap(rows)
      ensures RowMap(rows)[id].campaignId == c.id && id !in start
    {
      var i :| 0 <= i < |rows| && rows[i].0 == id;
    }
  }

  lemma ObservationKeepsSound(h: Harness, governing: Digest, it: Iteration, named: Digest)
    requires HarnessSound(h) && AddObservation(h, governing, it, named).Ok?
    ensures HarnessSound(AddObservation(h, governing, it, named).value)
  {
    hide HarnessSound, MetricSound, DecisionSound, HeadSound;
    GrowthKeepsSound(h, AddObservation(h, governing, it, named).value);
  }

  lemma MetricKeepsSound(h: Harness, governing: Digest, observationId: Id, manifestId: Id, variant: string, result: Metric, named: Digest)
    requires HarnessSound(h) && AddMetric(h, governing, observationId, manifestId, variant, result, named).Ok?
    ensures HarnessSound(AddMetric(h, governing, observationId, manifestId, variant, result, named).value)
  {
    hide HarnessSound, ObservationSound, DecisionSound, HeadSound, Measured;
    var g := AddMetric(h, governing, observationId, manifestId, variant, result, named).value;
    assert Measured(g.observations[observationId], g.metrics[result.id]);
    assert MetricSound(g, result.id);
    GrowthKeepsSound(h, g);
  }

  lemma ConfoundKeepsSound(h: Harness, governing: Digest, c: Confound)
    requires HarnessSound(h) && AddConfound(h, governing, c).Ok?
    ensures HarnessSound(AddConfound(h, governing, c).value)
  {
    hide HarnessSound, ObservationSound, MetricSound, DecisionSound, HeadSound;
    GrowthKeepsSound(h, AddConfound(h, governing, c).value);
  }

  lemma DecisionKeepsSound(hash: CampaignHash, h: Harness, governing: Digest, d: HarnessDecision, report: Report)
    requires HarnessSound(h) && AddDecision(hash, h, governing, d, report).Ok?
    ensures HarnessSound(AddDecision(hash, h, governing, d, report).value)
  {
    hide HarnessSound, ObservationSound, MetricSound;
    GrowthKeepsSound(h, AddDecision(hash, h, governing, d, report).value);
  }

  /** Every step keeps all references resolved and every campaign head on one of its decisions. */
  lemma HarnessKeepsSound(hash: CampaignHash, h: Harness, governing: Digest, p: HarnessProposal)
    requires HarnessSound(h) && ApplyHarness(hash, h, governing, p).Ok?
    ensures HarnessSound(ApplyHarness(hash, h, governing, p).value)
  {
    hide HarnessSound, AddCampaign, AddObservation, AddMetric, AddConfound, AddDecision;
    match p {
      case CreateCampaign(c) => CampaignKeepsSound(hash, h, governing, c);
      case RecordIteration(it, named) => ObservationKeepsSound(h, governing, it, named);
      case RecordProtectedResult(o, m, variant, result, named) => MetricKeepsSound(h, governing, o, m, variant, result, named);
      case RecordConfound(c) => ConfoundKeepsSound(h, governing, c);
      case DecideCampaign(d, report) => DecisionKeepsSound(hash, h, governing, d, report);
    }
  }

  // ---- the dictionaries, filled in place ----

  class HarnessTables {
    var campaigns: map<Id, CampaignRow>
    var partitions: map<Id, Manifest>
    var budgets: map<Id, BudgetRow>
    var observations: map<Id, Observation>
    var metrics: map<Id, Metric>
    var confounds: map<Id, Confound>
    var decisions: map<Id, DecisionRow>
    var heads: map<Id, (Id, string)>

    function Contents(): Harness
      reads this
    {
      Harness(campaigns, partitions, budgets, observations, metrics, confounds, decisions, heads)
    }

    constructor ()
      ensures Contents() == NO_HARNESS
    {
      campaigns, partitions, budgets, observations := map[], map[], map[], map[];
      metrics, confounds, decisions, heads := map[], map[], map[], map[];
    }

    method CreateCampaignRows(hash: CampaignHash, governing: Digest, c: Campaign) returns (ok: bool)
      modifies this`campaigns, this`partitions, this`budgets
      ensures ok <==> AddCampaign(hash, old(Contents()), governing, c).Ok?
      ensures ok ==> Contents() == AddCampaign(hash, old(Contents()), governing, c).value
    {
      if c.governing != governing || c.id in campaigns {
        return false;
      }
      campaigns := campaigns[c.id := RowOfCampaign(hash, c)];
      ok := AddManifests(governing, c.partitions);
      if ok {
        ok := AddBudgets(c);
      }
    }

    method AddManifests(governing: Digest, added: seq<Manifest>) returns (ok: bool)
      modifies this`partitions
      ensures ok <==> Fold(ManifestRow(governing), old(partitions), added).Ok?
      ensures ok ==> partitions == Fold(ManifestRow(governing), old(partitions), added).value
    {
      ghost var step, before := ManifestRow(governing), partitions;
      for i := 0 to |added|
        invariant Fold(step, before, added[..i]) == Ok(partitions)
      {
        FoldSnoc(step, before, added[..i], added[i]);
        assert added[..i + 1] == added[..i] + [added[i]];
        if added[i].governing != governing || added[i].id in partitions {
          if Fold(step, before, added).Ok? {
            FoldPrefix(step, before, added, i + 1);
          }
          return false;
        }
        partitions := partitions[added[i].id := added[i]];
      }
      assert added[..|added|] == added;
      return true;
    }

    method AddBudgets(c: Campaign) returns (ok: bool)
      modifies this`budgets
      ensures ok <==> AddRows(old(budgets), BudgetRows(c)).Ok?
      ensures ok ==> budgets == AddRows(old(budgets), BudgetRows(c)).value
    {
      ghost var before, rows := budgets, BudgetRows(c);
      for i := 0 to |c.budgets|
        invariant AddRows(before, rows[..i]) == Ok(budgets)
      {
        var item := c.budgets[i];
        FoldSnoc(AddRow(), before, rows[..i], rows[i]);
        assert rows[..i + 1] == rows[..i] + [rows[i]];
        if item.id in budgets {
          if AddRows(before, rows).Ok? {
            FoldPrefix(AddRow(), before, rows, i + 1);
          }
          return false;
        }
        budgets := budgets[item.id := BudgetRow(item.id, c.id, item.variant, c.governing, item.body)];
      }
      assert rows[..|c.budgets|] == rows;
      return true;
    }

    /** `_replay_harness_projection`. */
    method Replay(hash: CampaignHash, governing: Digest, p: HarnessProposal) returns (ok: bool)
      modifies this
      ensures ok <==> ApplyHarness(hash, old(Contents()), governing, p).Ok?
      ensures ok ==> Contents() == ApplyHarness(hash, old(Contents()), governing, p).value
    {
      hide Fold, AddRows, IterationBinds, ResultBinds, ReportBinds;
      match p {
        case CreateCampaign(c) =>
          ok := CreateCampaignRows(hash, governing, c);
        case RecordIteration(it, named) =>
          ok := named == governing && IterationBinds(Contents(), it) && it.observationId !in observations;
          if ok {
            var next := AddObservation(Contents(), governing, it, named);
            observations := next.value.observations;
          }
        case RecordProtectedResult(o, m, variant, result, named) =>
          ok := named == governing && ResultBinds(Contents(), o, m, variant, result) && result.id !in metrics;
          if ok {
            metrics := metrics[result.id := result];
          }
        case RecordConfound(c) =>
          ok := c.governing == governing && c.campaignId in campaigns && c.id !in confounds;
          if ok {
            confounds := confounds[c.id := c];
          }
        case DecideCampaign(d, report) =>
          ok := d.governing == governing && ReportBinds(hash, Contents(), d, report) && d.id !in decisions;
          if ok {
            decisions := decisions[d.id := DecisionRow(d, report.resultIds, report.confoundIds)];
            heads := heads[d.campaignId := (d.id, d.status)];
          }
      }
    }
  }
}
