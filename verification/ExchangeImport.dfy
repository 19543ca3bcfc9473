/** Whole imports: the preflight on a clone of the target, and the commit it predicts. */
module ExchangeImport {
  import opened Common
  import opened Ordering
  import opened WorkspaceExchange
  import opened ExchangeProofs
  import opened ExchangePrefix
  import opened ExchangeReproduction

  lemma FreshIsEmptyPrefix(boot: Policy, audit: seq<Event>)
    ensures Fresh(boot) == Of(boot, audit[..0])
  {}

  lemma EmptyIsPrepared(k: Kernel, b: Bundle, boot: Policy, clock: Clock)
    requires b.bootstrap == boot && boot in b.policies
    ensures Commit(k, b, EMPTY, clock) == Commit(k, b, Fresh(boot), clock)
  {}

  lemma FreshIsBare(boot: Policy)
    ensures OnlyPersisted(Fresh(boot)) && |Fresh(boot).stored| == 0
  {}

  /** The export of a workspace can be rebuilt from nothing exactly when its log is clean, and what
      is rebuilt is the persisted log. */
  lemma CloneVerifiesExactly(k: Kernel, boot: Policy, ws: Workspace, clock: Clock)
    requires Lawful(k) && CollisionFree(k) && Sound(k, boot, ws)
    ensures |ws.stored| == |Persisted(ws.audit)| && ws.active.Some?
    ensures
      var cloned := Commit(k, Bundled(k, ws, Log(k, ws)), EMPTY, clock);
      && (cloned.Ok? && cloned.value.1.verified <==> Clean(ws, clock))
      && (Clean(ws, clock) ==>
            |ws.stored| <= |ws.audit| && cloned == Ok((Of(boot, ws.audit[..|ws.stored|]), Import(Tally(|ws.stored|, 0, []), true))))
  {
    hide *;
    ExportKeepsAuditOrder(k, boot, ws);
    var b := Bundled(k, ws, Log(k, ws));
    EmptyIsPrepared(k, b, boot, clock);
    FreshIsEmptyPrefix(boot, ws.audit);
    CleanIsFromStart(ws, clock);
    var cloned := Commit(k, b, EMPTY, clock);
    if Clean(ws, clock) {
      CleanBundleCommits(k, boot, ws, 0, clock);
    } else if cloned.Ok? && cloned.value.1.verified {
      FreshIsSound(k, boot);
      FreshIsBare(boot);
      VerifiedMeansReproduced(k, boot, ws, boot, Fresh(boot), clock, cloned.value.0, cloned.value.1);
    }
  }

  lemma CleanIsFromStart(ws: Workspace, clock: Clock)
    ensures Clean(ws, clock) <==> CleanFrom(ws, 0, clock)
    ensures Clean(ws, clock) ==> Leads(ws)
  {}

  /** A preflight needs a clean target, and works on its persisted events alone. */
  lemma StagedExactly(k: Kernel, b: Bundle, boot: Policy, target: Workspace, clock: Clock)
    requires Lawful(k) && CollisionFree(k) && Sound(k, boot, target)
    ensures StagedClone(k, b, target, clock).Ok? <==> b.bootstrap in target.policies && Clean(target, clock)
    ensures StagedClone(k, b, target, clock).Ok? ==>
      |target.stored| <= |target.audit| && StagedClone(k, b, target, clock) == Ok(Of(boot, target.audit[..|target.stored|]))
  {
    hide Sound, Lawful, CollisionFree, Export, Bundled, Log, Commit, Clean, Of;
    ExportKeepsAuditOrder(k, boot, target);
    CloneVerifiesExactly(k, boot, target, clock);
    ActiveIsRegistered(k, boot, target);
  }

  /** A target whose log is not clean refuses every bundle, whatever it holds. */
  lemma UncleanTargetRefuses(k: Kernel, b: Bundle, boot: Policy, target: Workspace, clocks: Clocks)
    requires Lawful(k) && CollisionFree(k) && Sound(k, boot, target) && !Clean(target, clocks.clone)
    ensures ImportWorkspace(k, b, target, clocks).Raised?
  {
    hide Sound, StagedClone, Commit, ConflictsOnly, Clean;
    StagedExactly(k, b, boot, target, clocks.clone);
  }

  /** Once a refusal has been audited, the next transaction that is stored puts an end to imports,
      whatever the clock says. */
  lemma RefusalThenTransactionEndsImports(k: Kernel, boot: Policy, ws: Workspace, j: nat, configured: Policy, p: Proposal, fingerprint: Option<Digest>,
                                          t: Time, b: Bundle, clocks: Clocks)
    requires Lawful(k) && CollisionFree(k) && Sound(k, boot, ws) && j < |ws.audit| && !ws.audit[j].payload.persisted
    requires |SubmitLocked(k, ws, configured, p, fingerprint, t).0.stored| > |ws.stored|
    ensures ImportWorkspace(k, b, SubmitLocked(k, ws, configured, p, fingerprint, t).0, clocks).Raised?
  {
    var after := SubmitLocked(k, ws, configured, p, fingerprint, t).0;
    SubmitLockedKeepsSound(k, boot, ws, configured, p, fingerprint, t);
    SubmissionGrows(k, ws, configured, p, fingerprint, t);
    TooManyPersisted(ws.audit, j, after);
    hide Sound, SubmitLocked, ImportWorkspace, Leads;
    CleanIsFromStart(after, clocks.clone);
    UncleanTargetRefuses(k, b, boot, after, clocks);
  }

  lemma SubmissionGrows(k: Kernel, ws: Workspace, configured: Policy, p: Proposal, fingerprint: Option<Digest>, t: Time)
    requires ws.active.Some?
    ensures
      var after := SubmitLocked(k, ws, configured, p, fingerprint, t).0;
      |after.stored| > |ws.stored| ==> ws.audit < after.audit
  {
    hide Recorded, Audited;
    var (after, d) := SubmitLocked(k, ws, configured, p, fingerprint, t);
    if ByKey(ws.stored, p.key).None? && ById(ws.stored, p.id).None? {
      RecordedShape(k, ws, configured, p, d, fingerprint, t);
    } else {
      AuditedStoresNothing(k, ws, configured, p, d, fingerprint, t);
    }
  }

  lemma AuditedStoresNothing(k: Kernel, ws: Workspace, configured: Policy, p: Proposal, d: Decision, fingerprint: Option<Digest>, t: Time)
    requires ws.active.Some?
    ensures Audited(k, ws, configured, p, d, fingerprint, t).stored == ws.stored
  {}

  lemma TooManyPersisted(audit: seq<Event>, j: nat, after: Workspace)
    requires j < |audit| && !audit[j].payload.persisted && audit <= after.audit && |Persisted(after.audit)| > |Persisted(audit)|
    ensures !Leads(after)
  {
    var longer, n := after.audit, |Persisted(after.audit)|;
    if Leads(after) {
      assert n <= j by {
        assert longer[j] == audit[j];
      }
      PersistedStart(longer, n);
      assert audit[..n] == longer[..n];
      PersistedPrefix(audit, n);
    }
  }

  /** The target holds an initial segment of the source's persisted log; if records are missing,
      nothing else may follow that segment. */
  predicate Continues(target: Workspace, ws: Workspace)
  {
    var m, n := |target.stored|, |ws.stored|;
    && m <= n <= |ws.audit| && m <= |target.audit| && target.audit[..m] == ws.audit[..m]
    && (m == n || |target.audit| == m)
  }

  predicate Imported(boot: Policy, ws: Workspace, target: Workspace, after: Workspace, tally: Tally)
    requires |target.stored| <= |ws.stored| <= |ws.audit|
  {
    && tally == Tally(|ws.stored| - |target.stored|, |target.stored|, [])
    && after == (if |target.stored| == |ws.stored| then target else Of(boot, ws.audit[..|ws.stored|]))
  }

  /** A whole import, given the clone. */
  lemma ImportIs(k: Kernel, b: Bundle, target: Workspace, clocks: Clocks, clone: Workspace, preflight: Result<(Workspace, Import)>)
    requires StagedClone(k, b, target, clocks.clone) == Ok(clone) && preflight == Commit(k, b, clone, clocks.preflight)
    ensures
      var imported, commit := ImportWorkspace(k, b, target, clocks), Commit(k, b, target, clocks.commit);
      && (imported.Ok? && imported.value.1.verified ==>
            preflight.Ok? && preflight.value.1.verified && imported == commit && imported.value.1 == preflight.value.1)
      && (preflight.Ok? && preflight.value.1.verified && commit.Ok? && commit.value.1 == preflight.value.1
          && preflight.value.1.tally.conflicts == [] ==>
            imported == commit)
  {
    hide Commit, StagedClone;
  }

  lemma CloneIsBare(k: Kernel, boot: Policy, target: Workspace)
    requires Sound(k, boot, target) && Leads(target)
    ensures |target.stored| <= |target.audit|
    ensures
      var clone := Of(boot, target.audit[..|target.stored|]);
      OnlyPersisted(clone) && Sound(k, boot, clone) && |clone.stored| == |target.stored|
  {
    PrefixIsSound(k, boot, target, |target.stored|);
    PrefixShape(boot, target, |target.stored|);
  }

  /** The first persisted event beyond an initial segment lies beyond it. */
  lemma FirstBeyond(short: seq<Event>, long: seq<Event>) returns (j: nat)
    requires short <= long && |Persisted(short)| < |Persisted(long)|
    ensures |short| <= j < |long| && Persisted(long)[|Persisted(short)|] == long[j]
  {
    hide Persisted;
    j := PersistedIndex(long, |Persisted(short)|);
    if j < |short| {
      PersistedSnoc(long[..j], long[j]);
      assert short[..j + 1] == long[..j] + [long[j]];
      PersistedPrefix(short, j + 1);
    }
  }

  lemma NextRecordedPlace(k: Kernel, target: Workspace, after: Workspace, ws: Workspace)
    requires Chained(k, after.audit) && target.audit <= after.audit && Leads(ws) && Chained(k, ws.audit)
    requires |Persisted(target.audit)| < |Persisted(after.audit)| == |Persisted(ws.audit)|
    requires Persisted(after.audit)[|Persisted(target.audit)|].sequence == Persisted(ws.audit)[|Persisted(target.audit)|].sequence
    ensures |target.audit| <= |Persisted(target.audit)|
  {
    hide NextEvent, Persisted;
    PersistedStart(ws.audit, |Persisted(ws.audit)|);
    ChainSequences(k, ws.audit);
    ChainSequences(k, after.audit);
    var j := FirstBeyond(target.audit, after.audit);
  }

  /** Both logs are clean where the three replays of an import record them, both started from the
      same policy, and the source continues the target. */
  predicate Importable(boot: Policy, ws: Workspace, origin: Policy, target: Workspace, clocks: Clocks)
  {
    && origin == boot && Clean(target, clocks.clone) && Continues(target, ws)
    && CleanFrom(ws, |target.stored|, clocks.preflight) && CleanFrom(ws, |target.stored|, clocks.commit)
  }

  /** A whole import of another workspace's export verifies exactly when it is importable; then it
      replays the target's transactions, imports the missing ones and leaves the source's persisted
      log. */
  lemma ImportSucceedsExactly(k: Kernel, boot: Policy, ws: Workspace, origin: Policy, target: Workspace, clocks: Clocks)
    requires Lawful(k) && CollisionFree(k) && Sound(k, boot, ws) && Sound(k, origin, target)
    ensures |ws.stored| == |Persisted(ws.audit)| && ws.active.Some?
    ensures
      var imported := ImportWorkspace(k, Bundled(k, ws, Log(k, ws)), target, clocks);
      && (imported.Ok? && imported.value.1.verified <==> Importable(boot, ws, origin, target, clocks))
      && (imported.Ok? && imported.value.1.verified ==>
            |target.stored| <= |ws.stored| <= |ws.audit| && Imported(boot, ws, target, imported.value.0, imported.value.1.tally))
  {
    hide *;
    ExportKeepsAuditOrder(k, boot, ws);
    var b := Bundled(k, ws, Log(k, ws));
    var imported := ImportWorkspace(k, b, target, clocks);
    if Importable(boot, ws, origin, target, clocks) {
      ContinuedImports(k, boot, ws, origin, target, clocks);
    } else if imported.Ok? && imported.value.1.verified {
      VerifiedContinues(k, boot, ws, origin, target, clocks);
    }
  }

  lemma ContinuedImports(k: Kernel, boot: Policy, ws: Workspace, origin: Policy, target: Workspace, clocks: Clocks)
    requires Lawful(k) && CollisionFree(k) && Sound(k, boot, ws) && Sound(k, origin, target)
    requires Importable(boot, ws, origin, target, clocks)
    ensures |ws.stored| == |Persisted(ws.audit)| && ws.active.Some? && |target.stored| <= |ws.stored| <= |ws.audit|
    ensures
      var imported := ImportWorkspace(k, Bundled(k, ws, Log(k, ws)), target, clocks);
      imported.Ok? && imported.value.1.verified && Imported(boot, ws, target, imported.value.0, imported.value.1.tally)
  {
    hide Sound, Lawful, CollisionFree, Clean, CleanFrom, Commit, ImportWorkspace, StagedClone, Export, Bundled, Of, Log;
    ExportKeepsAuditOrder(k, boot, ws);
    ExportKeepsAuditOrder(k, boot, target);
    var b, m, n := Bundled(k, ws, Log(k, ws)), |target.stored|, |ws.stored|;
    StagedExactly(k, b, boot, target, clocks.clone);
    CleanBundleCommits(k, boot, ws, m, clocks.preflight);
    ImportIs(k, b, target, clocks, Of(boot, target.audit[..m]), Commit(k, b, Of(boot, target.audit[..m]), clocks.preflight));
    if m == n {
      CleanLeads(ws, m, clocks.preflight);
      CleanIsFromStart(target, clocks.clone);
      CleanExport(k, boot, ws);
      CleanExport(k, boot, target);
      ReimportChangesNothing(k, boot, target, clocks.commit);
    } else {
      CleanBundleCommits(k, boot, ws, m, clocks.commit);
      assert target.audit[..m] == target.audit;
      SoundIsOf(k, boot, target);
    }
  }

  lemma VerifiedContinues(k: Kernel, boot: Policy, ws: Workspace, origin: Policy, target: Workspace, clocks: Clocks)
    requires Lawful(k) && CollisionFree(k) && Sound(k, boot, ws) && Sound(k, origin, target)
    requires |ws.stored| == |Persisted(ws.audit)| && ws.active.Some?
    requires
      var imported := ImportWorkspace(k, Bundled(k, ws, Log(k, ws)), target, clocks);
      imported.Ok? && imported.value.1.verified
    ensures Importable(boot, ws, origin, target, clocks)
  {
    hide *;
    var b, m := Bundled(k, ws, Log(k, ws)), |target.stored|;
    if !Clean(target, clocks.clone) {
      UncleanTargetRefuses(k, b, origin, target, clocks);
    }
    StagedExactly(k, b, origin, target, clocks.clone);
    StagedIsNeeded(k, b, target, clocks);
    var clone := Of(origin, target.audit[..m]);
    var preflight := Commit(k, b, clone, clocks.preflight);
    ImportIs(k, b, target, clocks, clone, preflight);
    CleanIsFromStart(target, clocks.clone);
    CloneIsBare(k, origin, target);
    VerifiedMeansReproduced(k, boot, ws, origin, clone, clocks.preflight, preflight.value.0, preflight.value.1);
    CleanLeads(ws, m, clocks.preflight);
    OfAudit(origin, target.audit[..m]);
    OfAudit(boot, ws.audit[..m]);
    var (after, result) := Commit(k, b, target, clocks.commit).value;
    CommitContinues(k, boot, ws, target, clocks.commit, after, result);
    CommitIsClean(k, boot, ws, target, clocks.commit, after, result);
    AllImportable(boot, ws, origin, target, clocks);
  }

  lemma AllImportable(boot: Policy, ws: Workspace, origin: Policy, target: Workspace, clocks: Clocks)
    requires origin == boot && Clean(target, clocks.clone) && Continues(target, ws)
    requires CleanFrom(ws, |target.stored|, clocks.preflight) && CleanFrom(ws, |target.stored|, clocks.commit)
    ensures Importable(boot, ws, origin, target, clocks)
  {}

  /** The commit's own readings reproduce what it imports. */
  lemma CommitIsClean(k: Kernel, boot: Policy, ws: Workspace, target: Workspace, clock: Clock, after: Workspace, result: Import)
    requires Lawful(k) && CollisionFree(k) && Sound(k, boot, ws) && Sound(k, boot, target) && Leads(ws) && Continues(target, ws)
    requires |ws.stored| == |Persisted(ws.audit)| && ws.active.Some?
    requires Commit(k, Bundled(k, ws, Log(k, ws)), target, clock) == Ok((after, result)) && result.verified
    ensures CleanFrom(ws, |target.stored|, clock)
  {
    hide Lawful, CollisionFree, Sound, Commit, Bundled, Log, Leads;
    if |target.audit| == |target.stored| {
      VerifiedMeansReproduced(k, boot, ws, boot, target, clock, after, result);
    }
  }

  lemma OfAudit(boot: Policy, audit: seq<Event>)
    ensures Of(boot, audit).audit == audit
  {}

  lemma StagedIsNeeded(k: Kernel, b: Bundle, target: Workspace, clocks: Clocks)
    ensures ImportWorkspace(k, b, target, clocks).Ok? ==> StagedClone(k, b, target, clocks.clone).Ok?
  {}

  lemma CommitContinues(k: Kernel, boot: Policy, ws: Workspace, target: Workspace, clock: Clock, after: Workspace, result: Import)
    requires Lawful(k) && Sound(k, boot, ws) && Sound(k, boot, target) && Leads(ws)
    requires |ws.stored| == |Persisted(ws.audit)| && ws.active.Some? && |target.stored| <= |target.audit|
    requires |target.stored| <= |ws.stored| <= |ws.audit| && target.audit[..|target.stored|] == ws.audit[..|target.stored|]
    requires Commit(k, Bundled(k, ws, Log(k, ws)), target, clock) == Ok((after, result)) && result.verified
    ensures Continues(target, ws)
  {
    hide Lawful, Commit, Bundled, Leads, Governed, AllGoverned, DistinctKeys, PoliciesAfter, ActiveAfter, AcceptedOf;
    var b, m, n := Bundled(k, ws, Log(k, ws)), |target.stored|, |ws.stored|;
    if m < n {
      ExportKeepsAuditOrder(k, boot, ws);
      ExportIsCanonical(k, boot, ws);
      VerifiedImportExtendsTarget(k, boot, b, target, clock, after, result);
      SamePlace(k, ws, after, m);
      NextRecordedPlace(k, target, after, ws);
    }
  }

  lemma SamePlace(k: Kernel, ws: Workspace, after: Workspace, i: nat)
    requires i < |ws.stored| == |Persisted(ws.audit)| == |after.stored| == |Persisted(after.audit)|
    requires RecordMatches(Log(k, ws)[i], Log(k, after)[i])
    ensures Persisted(after.audit)[i].sequence == Persisted(ws.audit)[i].sequence
  {}

  lemma VerifiedImportCommits(k: Kernel, b: Bundle, target: Workspace, clocks: Clocks)
    ensures
      var imported := ImportWorkspace(k, b, target, clocks);
      imported.Ok? && imported.value.1.verified ==> imported == Commit(k, b, target, clocks.commit)
  {}

  /** A conflict-free import of any canonical bundle, forged or not: the target's log was clean
      and an initial segment of the bundle's in replay order, and the counts say so. */
  lemma ConflictFreeImportExtendsTarget(k: Kernel, boot: Policy, b: Bundle, target: Workspace, clocks: Clocks)
    requires Lawful(k) && CollisionFree(k) && Canonical(k, b) && Sound(k, boot, target)
    ensures |target.stored| == |Persisted(target.audit)|
    ensures
      var imported := ImportWorkspace(k, b, target, clocks);
      imported.Ok? && imported.value.1.verified ==>
        && Clean(target, clocks.clone) && |target.stored| <= |b.records| == |InOrder(b)|
        && imported.value.1.tally == Tally(|b.records| - |target.stored|, |target.stored|, [])
        && (forall i :: 0 <= i < |target.stored| ==> RecordMatches(InOrder(b)[i], Log(k, target)[i]))
  {
    hide Sound, Lawful, CollisionFree, Canonical, ImportWorkspace, Commit, Log, Clean;
    SoundIsExportable(k, boot, target);
    var imported := ImportWorkspace(k, b, target, clocks);
    if imported.Ok? && imported.value.1.verified {
      VerifiedImportCommits(k, b, target, clocks);
      VerifiedImportExtendsTarget(k, boot, b, target, clocks.commit, imported.value.0, imported.value.1);
      if !Clean(target, clocks.clone) {
        UncleanTargetRefuses(k, b, boot, target, clocks);
      }
    }
  }

  // ---- conflicts only ----

  /** Nothing but refusals was added: no policy, no accepted decision. */
  ghost predicate OnlyRefusals(target: Workspace, after: Workspace, conflicts: nat, clock: Clock)
  {
    && after.policies == target.policies && after.active == target.active && after.accepted == target.accepted
    && target.audit <= after.audit && |after.audit| <= |target.audit| + conflicts && target.stored <= after.stored
    && forall j :: |target.audit| <= j < |after.audit| ==>
         Read(clock, after.audit[j].occurredAt) && (after.audit[j].payload.persisted ==> !after.audit[j].payload.decision.accepted)
  }

  lemma RefusalOutcome(k: Kernel, ws: Workspace, r: Record, after: Workspace, d: Decision, clock: Clock)
    requires ws.active.Some? && Outcome(k, ws, r, after, d, clock(r.order)) && !d.accepted
    ensures OnlyRefusals(ws, after, 1, clock)
  {}

  lemma RefusalsCompose(target: Workspace, ws: Workspace, after: Workspace, n: nat, clock: Clock)
    requires OnlyRefusals(target, ws, n, clock) && OnlyRefusals(ws, after, 1, clock)
    ensures OnlyRefusals(target, after, n + 1, clock)
  {}

  lemma ConflictStepRefuses(k: Kernel, boot: Policy, b: Bundle, expected: seq<Conflict>, target: Workspace, ws: Workspace, actual: seq<Conflict>,
                            r: Record, clock: Clock)
    requires Lawful(k) && Sound(k, boot, ws) && OnlyRefusals(target, ws, |actual|, clock)
    ensures
      var result := CommitConflict(k, b, expected, ws, actual, r, clock(r.order));
      result.Ok? ==> Sound(k, boot, result.value.0) && OnlyRefusals(target, result.value.0, |result.value.1|, clock)
  {
    hide Sound, Lawful, SubmitIntent, OnlyRefusals, Outcome;
    var submitted := SubmitIntent(k, ws, r.governing, r, clock(r.order));
    SubmitIntentKeepsSound(k, boot, ws, r.governing, r, clock(r.order));
    SubmissionOutcome(k, boot, ws, r, clock(r.order));
    ActiveIsRegistered(k, boot, ws);
    if submitted.Ok? && ConflictCode(submitted.value.1).Some? {
      RefusalOutcome(k, ws, r, submitted.value.0, submitted.value.1, clock);
      RefusalsCompose(target, ws, submitted.value.0, |actual|, clock);
    }
  }

  lemma {:induction false} ConflictFoldRefuses(k: Kernel, boot: Policy, b: Bundle, expected: seq<Conflict>, target: Workspace, records: seq<Record>, clock: Clock)
    requires Lawful(k) && Sound(k, boot, target)
    ensures
      var result := Fold(ConflictStep(k, b, expected, clock), (target, []), records);
      result.Ok? ==> Sound(k, boot, result.value.0) && OnlyRefusals(target, result.value.0, |result.value.1|, clock)
  {
    hide Sound, Lawful, CommitConflict;
    if records != [] {
      var earlier := Fold(ConflictStep(k, b, expected, clock), (target, []), records[..|records| - 1]);
      ConflictFoldRefuses(k, boot, b, expected, target, records[..|records| - 1], clock);
      if earlier.Ok? {
        ConflictStepRefuses(k, boot, b, expected, target, earlier.value.0, earlier.value.1, records[|records| - 1], clock);
      }
    }
  }

  /** An import that meets conflicts commits those refusals and nothing else. */
  lemma ConflictingImportOnlyRefuses(k: Kernel, boot: Policy, b: Bundle, target: Workspace, clocks: Clocks)
    requires Lawful(k) && Sound(k, boot, target)
    ensures
      var imported := ImportWorkspace(k, b, target, clocks);
      imported.Ok? && !imported.value.1.verified ==>
        && imported.value.1.tally == Tally(0, 0, imported.value.1.tally.conflicts) && imported.value.1.tally.conflicts != []
        && Sound(k, boot, imported.value.0)
        && OnlyRefusals(target, imported.value.0, |imported.value.1.tally.conflicts|, clocks.commit)
  {
    hide Sound, Lawful, StagedClone, OnlyRefusals, Export, Prepare, ImportAll, CommitConflict, BundleMatches;
    var staged := StagedClone(k, b, target, clocks.clone);
    if staged.Ok? && Commit(k, b, staged.value, clocks.preflight).Ok? {
      ConflictFoldRefuses(k, boot, b, Commit(k, b, staged.value, clocks.preflight).value.1.tally.conflicts, target, InOrder(b), clocks.commit);
    }
  }
}
