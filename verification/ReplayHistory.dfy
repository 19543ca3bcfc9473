/** The verifier that fills the dictionaries in one loop over the log, and what its verdict says
    about a verified workspace. */
module ReplayHistory {
  import opened Common
  import opened ReplayTables
  import opened AuditLog
  import opened PolicyReplay
  import opened ProgressReplay
  import opened TrailReplay
  import opened EvaluatorReplay
  import opened HarnessReplay
  import opened AuditReplay

  class Verifier {
    const trails: TrailTables
    const progress: ProgressTables
    const evaluators: EvaluatorTables
    const harness: HarnessTables
    var transitions: seq<(Transition, Digest)>

    function Contents(): Expected
      reads this, trails, progress, evaluators, harness
    {
      Expected(trails.Contents(), progress.Contents(), evaluators.Contents(), harness.Contents(), transitions)
    }

    constructor ()
      ensures Contents() == NOTHING_REPLAYED
      ensures fresh(trails) && fresh(progress) && fresh(evaluators) && fresh(harness)
    {
      trails := new TrailTables();
      progress := new ProgressTables();
      evaluators := new EvaluatorTables();
      harness := new HarnessTables();
      transitions := [];
    }

    method ReplayTransition(governing: Digest, t: Transition, run: Run, audit: EvaluatorAudit, m: Measurement) returns (ok: bool)
      modifies this, progress, evaluators
      ensures ok <==> ApplyTransition(old(Contents()), governing, t, run, audit, m).Ok?
      ensures ok ==> Contents() == ApplyTransition(old(Contents()), governing, t, run, audit, m).value
    {
      if governing != t.prior {
        return false;
      }
      ok := progress.CreateRun(t.prior, run);
      if !ok {
        return;
      }
      ok := evaluators.RecordAudit(t.prior, audit);
      if !ok {
        return;
      }
      ok := evaluators.RecordMeasurement(progress.runs, t.prior, m);
      if ok {
        transitions := transitions + [(t, governing)];
      }
    }

    method ReplayTrails(b: Builders, governing: Digest, c: Content) returns (ok: bool)
      requires c.EvidenceAdded? || c.ClaimProposed? || c.ClaimTransitioned? || c.TrailVersionRecorded?
      modifies trails
      ensures ok <==> Apply(b, old(Contents()), governing, c).Ok?
      ensures ok ==> Contents() == Apply(b, old(Contents()), governing, c).value
    {
      hide AddEvidence, AddClaim, AddVersion, AddRun, AddRunEvent, AddPlan, AddProgressEvent, ProgressSound;
      hide AddAudit, AddMeasurement, AddEvaluator, AddSuccession;
      match c {
        case EvidenceAdded(e) => ok := trails.RecordEvidence(b.verified(e));
        case ClaimProposed(claim) => ok := trails.RecordClaim(claim);
        case ClaimTransitioned(claim) => ok := trails.RecordClaim(claim);
        case TrailVersionRecorded(v, rows) => ok := trails.RecordVersion(governing, v, rows);
      }
    }

    method ReplayProgress(b: Builders, governing: Digest, c: Content) returns (ok: bool)
      requires c.RunCreated? || c.RunEventAppended? || c.PlanRecorded? || c.ProgressEventAppended?
      requires ProgressSound(progress.Contents())
      modifies progress
      ensures ok <==> Apply(b, old(Contents()), governing, c).Ok?
      ensures ok ==> Contents() == Apply(b, old(Contents()), governing, c).value
    {
      hide AddEvidence, AddClaim, AddVersion, AddRun, AddRunEvent, AddPlan, AddProgressEvent, ProgressSound;
      hide AddAudit, AddMeasurement, AddEvaluator, AddSuccession;
      match c {
        case RunCreated(run) => ok := progress.CreateRun(governing, run);
        case RunEventAppended(e) => ok := progress.AppendRunEvent(governing, e);
        case PlanRecorded(plan) => ok := progress.RecordPlan(governing, plan);
        case ProgressEventAppended(e) => ok := progress.AppendEvent(governing, e);
      }
    }

    method ReplayEvaluators(b: Builders, governing: Digest, c: Content) returns (ok: bool)
      requires c.AuditRecorded? || c.MeasurementRecorded? || c.EvaluatorProposed? || c.SuccessionDecided?
      modifies evaluators
      ensures ok <==> Apply(b, old(Contents()), governing, c).Ok?
      ensures ok ==> Contents() == Apply(b, old(Contents()), governing, c).value
    {
      hide AddEvidence, AddClaim, AddVersion, AddRun, AddRunEvent, AddPlan, AddProgressEvent, ProgressSound;
      hide AddAudit, AddMeasurement, AddEvaluator, AddSuccession;
      match c {
        case AuditRecorded(audit) => ok := evaluators.RecordAudit(governing, audit);
        case MeasurementRecorded(m) => ok := evaluators.RecordMeasurement(progress.runs, governing, m);
        case EvaluatorProposed(v) => ok := evaluators.ProposeVersion(governing, v);
        case SuccessionDecided(d) => ok := evaluators.DecideSuccession(governing, d);
      }
    }

    /** One accepted record: the branches of the loop in `_require_projection_consistency`. */
    method ReplayRecord(b: Builders, governing: Digest, c: Content) returns (ok: bool)
      requires ProgressSound(progress.Contents())
      modifies this, trails, progress, evaluators, harness
      ensures ok <==> Apply(b, old(Contents()), governing, c).Ok?
      ensures ok ==> Contents() == Apply(b, old(Contents()), governing, c).value
    {
      hide *;
      if c.EvidenceAdded? || c.ClaimProposed? || c.ClaimTransitioned? || c.TrailVersionRecorded? {
        ok := ReplayTrails(b, governing, c);
      } else if c.RunCreated? || c.RunEventAppended? || c.PlanRecorded? || c.ProgressEventAppended? {
        ok := ReplayProgress(b, governing, c);
      } else if c.AuditRecorded? || c.MeasurementRecorded? || c.EvaluatorProposed? || c.SuccessionDecided? {
        ok := ReplayEvaluators(b, governing, c);
      } else {
        ok := ReplayRest(b, governing, c);
      }
    }

    method ReplayRest(b: Builders, governing: Digest, c: Content) returns (ok: bool)
      requires c.HarnessStep? || c.PolicyTransitioned? || c.OutsideSlice?
      modifies this, progress, evaluators, harness
      ensures ok <==> Apply(b, old(Contents()), governing, c).Ok?
      ensures ok ==> Contents() == Apply(b, old(Contents()), governing, c).value
    {
      hide ApplyHarness, ApplyTransition;
      match c {
        case HarnessStep(p) => ok := harness.Replay(b.campaignHash, governing, p);
        case PolicyTransitioned(t, run, audit, m) => ok := ReplayTransition(governing, t, run, audit, m);
        case OutsideSlice(_) => ok := true;
      }
    }

    /** The loop over the audit records. */
    method ReplayLog(b: Builders, passes: Verdict, records: seq<Entry>) returns (ok: bool)
      requires Contents() == NOTHING_REPLAYED
      modifies this, trails, progress, evaluators, harness
      ensures ok <==> Replay(b, passes, records).Ok?
      ensures ok ==> Contents() == Replay(b, passes, records).value
    {
      hide Apply, ProgressSound;
      ghost var step := Step(b, passes);
      for i := 0 to |records|
        invariant Fold(step, NOTHING_REPLAYED, records[..i]) == Ok(Contents())
      {
        var r := records[i];
        FoldSnoc(step, NOTHING_REPLAYED, records[..i], r);
        assert records[..i + 1] == records[..i] + [r];
        if TakesEffect(r) {
          ok := passes(r.sequence);
          if ok {
            ReplayedProgressIsSound(b, passes, records[..i]);
            ok := ReplayRecord(b, r.governing, r.proposal.content);
          }
          if !ok {
            if Fold(step, NOTHING_REPLAYED, records).Ok? {
              FoldPrefix(step, NOTHING_REPLAYED, records, i + 1);
            }
            return;
          }
        }
      }
      assert records[..|records|] == records;
      return true;
    }
  }

  lemma ReplayedProgressIsSound(b: Builders, passes: Verdict, records: seq<Entry>)
    requires Replay(b, passes, records).Ok?
    ensures ProgressSound(Replay(b, passes, records).value.progress)
  {
    hide ProgressSound, Replay;
    ReplayIsSound(b, passes, records);
  }

  /** Reading the stored policies decodes every row. */
  method DecodePolicies(policyHash: PolicyHash, registered: seq<Policy>, active: Option<Policy>) returns (ok: bool)
    ensures ok <==> AllDecode(policyHash, registered, active)
  {
    for i := 0 to |registered|
      invariant forall j :: 0 <= j < i ==> Decodes(policyHash, registered[j])
    {
      if !Decodes(policyHash, registered[i]) {
        return false;
      }
    }
    return active.None? || Decodes(policyHash, active.value);
  }

  /** `_require_projection_consistency`. */
  method RequireProjections(b: Builders, passes: Verdict, records: seq<Entry>, t: Tables) returns (ok: bool)
    ensures ok <==> Verified(b, passes, records, t)
  {
    hide Replay, HistoricalSequence, ProjectionSequence, AllDecode;
    var views := PolicyViews(records);
    ok := DecodePolicies(b.policyHash, t.policies, t.active);
    if !ok {
      return;
    }
    ok := RequireHistoricalSequence(views, RowMap(PolicyRows(t.policies)), t.active);
    if !ok {
      return;
    }
    var verifier := new Verifier();
    ok := verifier.ReplayLog(b, passes, records);
    if !ok {
      return;
    }
    var s := verifier.Contents();
    if !SameTables(s, t) || !HeadAllowed(s.evaluators, t.evaluatorHead) {
      return false;
    }
    ok := RequirePolicyProjection(t.policies, t.active, s.transitions);
  }

  /** `verify_workspace` on the modelled families. */
  predicate WorkspaceVerified(b: Builders, passes: Verdict, transactions: seq<Stored<Content>>, records: seq<Entry>, t: Tables)
  {
    && Consistent(transactions, records)
    && AcceptedInOrder(ById(transactions), records).Ok?
    && Verified(b, passes, records, t)
  }

  method VerifyWorkspace(b: Builders, passes: Verdict, transactions: seq<Stored<Content>>, records: seq<Entry>, t: Tables) returns (valid: bool)
    ensures valid <==> WorkspaceVerified(b, passes, transactions, records, t)
  {
    hide Verified, Consistent;
    valid := RequireConsistency(transactions, records);
    if valid {
      valid := AcceptedInOrder(ById(transactions), records).Ok?;
    }
    if valid {
      valid := RequireProjections(b, passes, records, t);
    }
  }

  // ---- what a verified workspace looks like ----

  /** In a verified workspace a run's plan versions are 1 to n and its head is its greatest event; a
      trail is one chain from version 1 to its head; every harness reference resolves. */
  lemma VerifiedHistories(b: Builders, passes: Verdict, records: seq<Entry>, t: Tables, runId: Id, trailId: Id)
    requires Verified(b, passes, records, t)
    ensures TrailsSound(t.trails) && ProgressSound(t.progress) && HarnessSound(t.harness)
    ensures forall v :: v in VersionsOf(t.progress.plans, runId) <==> 1 <= v <= |PlansOf(t.progress.plans, runId)|
    ensures runId in t.progress.heads ==> HeadIsGreatest(t.progress, runId)
    ensures trailId in t.trails.heads ==>
      && t.trails.heads[trailId].0 in t.trails.versions
      && var chain := ChainTo(t.trails, t.trails.heads[trailId].0);
      && |chain| == t.trails.heads[trailId].1
      && (forall i :: 0 <= i < |chain| ==> Linked(t.trails, chain, i))
      && (forall id :: id in t.trails.versions && t.trails.versions[id].trailId == trailId <==> id in chain)
  {
    hide Replay, TrailsSound, HarnessSound, Linked, ChainTo, HeadIsGreatest, PlansContiguous, EventsBelong, VersionsOf, PlansOf;
    ReplayIsSound(b, passes, records);
    PlanVersionsAreContiguous(t.progress, runId);
    if trailId in t.trails.heads {
      TrailIsOneChain(t.trails, trailId);
    }
  }

  /** In a verified workspace every record was governed by the candidate of the last transition
      before it, the active pointer is what the last one left, and with at least one transition the
      registry is exactly what was ever in force and every rollback target was in force before. */
  lemma {:induction false} VerifiedPolicyHistory(b: Builders, passes: Verdict, records: seq<Entry>, t: Tables)
    requires Verified(b, passes, records, t) && records != []
    ensures forall i :: 0 <= i < |records| ==> records[i].governing == ActiveBefore(PolicyViews(records), i)
    ensures t.active.Some? && t.active.value.hash == ActiveBefore(PolicyViews(records), |records|)
    ensures TransitionsOf(PolicyViews(records)) != [] ==>
      && TransitionsOf(PolicyViews(records))[0].0.prior == records[0].governing
      && AllRollBack(PolicyViews(records), |records|)
      && RowMap(PolicyRows(t.policies)).Keys == EverActive(PolicyViews(records), |records|)
  {
    hide Replay, HistoricalSequence, ProjectionSequence, TransitionsOf, RowMap, PolicyRows, AllRollBack, EverActive, ActiveBefore;
    var views := PolicyViews(records);
    TransitionsAreTheViews(b, passes, records);
    HistoricalExactly(views, RowMap(PolicyRows(t.policies)), t.active);
    forall i | 0 <= i < |records|
      ensures records[i].governing == ActiveBefore(views, i)
    {
      assert Governs(views, RowMap(PolicyRows(t.policies)), i);
    }
    if TransitionsOf(views) != [] {
      SecondReplayExactly(views, t.policies, t.active);
      RegistryIsEverActive(views, t.policies, t.active);
    }
  }

  // ---- accepted successions form one path ----

  function AcceptedSuccessions(records: seq<Entry>): seq<Succession>
  {
    if records == [] then []
    else
      var n := |records| - 1;
      AcceptedSuccessions(records[..n]) + (if SucceedsAt(records, n) then [records[n].proposal.content.succession] else [])
  }

  /** The first accepted succession is record n, and before it the root evaluator was unique. */
  ghost predicate StartsAtRoot(b: Builders, passes: Verdict, records: seq<Entry>, root: Id, n: nat)
  {
    && n < |records| && SucceedsAt(records, n) && AcceptedSuccessions(records[..n]) == []
    && Replay(b, passes, records[..n]).Ok? && Roots(Replay(b, passes, records[..n]).value.evaluators.versions) == {root}
  }

  lemma AppliedPath(b: Builders, path: seq<Succession>, root: Option<Id>, s: Expected, governing: Digest, c: Content)
    requires OnePath(path, root, s.evaluators) && Apply(b, s, governing, c).Ok?
    ensures
      var after := Apply(b, s, governing, c).value.evaluators;
      if c.SuccessionDecided? && c.succession.accepted then
        && OnePath(path + [c.succession], if path == [] then Some(c.succession.predecessor) else root, after)
        && (path == [] ==> Roots(s.evaluators.versions) == {c.succession.predecessor})
      else OnePath(path, root, after)
  {}

  lemma StartKept(b: Builders, passes: Verdict, records: seq<Entry>, root: Id, n: nat)
    requires records != [] && StartsAtRoot(b, passes, records[..|records| - 1], root, n)
    ensures StartsAtRoot(b, passes, records, root, n)
  {
    assert records[..|records| - 1][..n] == records[..n];
  }

  /** After any successful replay the accepted successions form one path: it starts at the evaluator
      that was the only root when the first of them was decided, each continues where the last one
      ended, and the head is where the path ends. */
  lemma {:induction false} SuccessionsFormOnePath(b: Builders, passes: Verdict, records: seq<Entry>) returns (root: Option<Id>, first: nat)
    requires Replay(b, passes, records).Ok?
    ensures OnePath(AcceptedSuccessions(records), root, Replay(b, passes, records).value.evaluators)
    ensures AcceptedSuccessions(records) != [] ==> root.Some? && StartsAtRoot(b, passes, records, root.value, first)
  {
    hide Apply, OnePath, StartsAtRoot;
    root, first := None, 0;
    if records == [] {
      EmptyPath();
    } else {
      var n := |records| - 1;
      var r, path := records[n], AcceptedSuccessions(records[..n]);
      FoldPrefix(Step(b, passes), NOTHING_REPLAYED, records, n);
      root, first := SuccessionsFormOnePath(b, passes, records[..n]);
      var before := Replay(b, passes, records[..n]).value;
      if TakesEffect(r) {
        AppliedPath(b, path, root, before, r.governing, r.proposal.content);
      }
      assert path + [] == path;
      if path != [] {
        StartKept(b, passes, records, root.value, first);
      } else if SucceedsAt(records, n) {
        root, first := Some(r.proposal.content.succession.predecessor), n;
        StartsHere(b, passes, records, root.value);
      }
    }
  }

  lemma EmptyPath()
    ensures OnePath([], None, NO_EVALUATORS)
  {}

  lemma StartsHere(b: Builders, passes: Verdict, records: seq<Entry>, root: Id)
    requires records != []
    requires
      var n := |records| - 1;
      && SucceedsAt(records, n) && AcceptedSuccessions(records[..n]) == [] && Replay(b, passes, records[..n]).Ok?
      && Roots(Replay(b, passes, records[..n]).value.evaluators.versions) == {root}
    ensures StartsAtRoot(b, passes, records, root, |records| - 1)
  {}
}
