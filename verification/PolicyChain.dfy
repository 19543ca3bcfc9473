/** What a verifying approval rests on, in terms of the records that read back. */
module PolicyChain {
  import opened Common
  import opened PolicyLedger

  /** What an actor declares of itself, field by field. */
  datatype Trait = Provider(name: string) | Model(name: string) | Adapter(name: string) | Configuration(digest: Digest)

  function Traits(a: Actor): set<Trait>
  {
    (if a.provider.Some? then {Trait.Provider(a.provider.value)} else {}) + (if a.model.Some? then {Trait.Model(a.model.value)} else {})
    + (if a.adapter.Some? then {Trait.Adapter(a.adapter.value)} else {})
    + (if a.configuration.Some? then {Trait.Configuration(a.configuration.value)} else {})
  }

  /** Two actors are independent exactly when they differ and declare nothing in common. */
  lemma IndependentExactly(a: Actor, b: Actor)
    ensures Independent(a, b) <==> a.actorId != b.actorId && Traits(a) !! Traits(b)
  {
    if a.actorId != b.actorId && Traits(a) !! Traits(b) {
      assert a.provider.Some? ==> Trait.Provider(a.provider.value) !in Traits(b);
      assert a.model.Some? ==> Trait.Model(a.model.value) !in Traits(b);
      assert a.adapter.Some? ==> Trait.Adapter(a.adapter.value) !in Traits(b);
      assert a.configuration.Some? ==> Trait.Configuration(a.configuration.value) !in Traits(b);
    }
  }

  ghost predicate NothingShared(actor: Actor, others: set<Actor>)
  {
    forall other :: other in others ==> actor.actorId != other.actorId && Traits(actor) !! Traits(other)
  }

  /** The approval names these records by id and by the digest of their bytes. */
  predicate Names(c: Codec, approval: Record, proposal: Record, measurement: Record, audit: Record)
  {
    && approval.Approval? && proposal.Proposal? && measurement.Measurement? && audit.Audit?
    && [approval.proposalId, approval.measurementId, approval.evaluatorAuditId]
       == [proposal.proposalId, measurement.measurementId, audit.evaluatorAuditId]
    && [approval.proposalHash, approval.measurementHash, approval.evaluatorAuditHash]
       == [c.hash(c.encode(proposal)), c.hash(c.encode(measurement)), c.hash(c.encode(audit))]
  }

  /** The measurement and the audit are those the proposal asked for, of the proposed change, from its
      baseline, with its rollback target, under one policy, by one proposer and one evaluator. */
  predicate MeasuresTheProposal(approval: Record, proposal: Record, measurement: Record, audit: Record)
    requires approval.Approval? && proposal.Proposal? && measurement.Measurement? && audit.Audit?
  {
    && proposal.measurementId == measurement.measurementId
    && proposal.evaluatorAuditId == measurement.evaluatorAuditId == audit.evaluatorAuditId
    && (measurement.changeId, measurement.baseline, measurement.candidate, measurement.rollbackTarget)
       == (proposal.proposalId, proposal.priorRegistry, proposal.proposedRegistry, proposal.rollbackCommit)
    && {approval.governingPolicy, measurement.governingPolicy, audit.governingPolicy} == {proposal.governingPolicy}
    && {measurement.proposer, audit.proposer, audit.producer} == {proposal.proposer}
    && (measurement.evaluator, measurement.evaluatorVersion) == (audit.evaluator, audit.evaluatorVersion)
  }

  /** The audit passed, a human accepted the measurement, and that human approves. */
  predicate Decided(approval: Record, measurement: Record, audit: Record)
    requires approval.Approval? && measurement.Measurement? && audit.Audit?
  {
    audit.passed && measurement.accepted && measurement.authority.kind == Human && measurement.authority == approval.approver
  }

  /** The auditor shares nothing with whom it audits, the approver nothing with anyone. */
  ghost predicate SeparatePowers(approval: Record, audit: Record)
    requires approval.Approval? && audit.Audit?
  {
    && audit.declaredIndependent && NothingShared(audit.auditor, {audit.evaluator, audit.proposer, audit.producer})
    && NothingShared(approval.approver, {audit.evaluator, audit.proposer, audit.producer, audit.auditor})
  }

  ghost predicate RestsOn(c: Codec, approval: Record, proposal: Record, measurement: Record, audit: Record)
  {
    && Names(c, approval, proposal, measurement, audit) && MeasuresTheProposal(approval, proposal, measurement, audit)
    && Decided(approval, measurement, audit) && SeparatePowers(approval, audit)
  }

  lemma AdmitsExactly(c: Codec, proposal: Record, measurement: Record, audit: Record, approval: Record)
    ensures Admits(c, proposal, measurement, audit, approval) <==> RestsOn(c, approval, proposal, measurement, audit)
  {
    if proposal.Proposal? && measurement.Measurement? && audit.Audit? && approval.Approval? {
      IndependentExactly(audit.auditor, audit.evaluator);
      IndependentExactly(audit.auditor, audit.proposer);
      IndependentExactly(audit.auditor, audit.producer);
      IndependentExactly(approval.approver, audit.evaluator);
      IndependentExactly(approval.approver, audit.proposer);
      IndependentExactly(approval.approver, audit.producer);
      IndependentExactly(approval.approver, audit.auditor);
      NamesExactly(c, approval, proposal, measurement, audit);
      MeasuresExactly(approval, proposal, measurement, audit);
      hide Independent, Traits, Names, MeasuresTheProposal;
    }
  }

  lemma NamesExactly(c: Codec, approval: Record, proposal: Record, measurement: Record, audit: Record)
    requires approval.Approval? && proposal.Proposal? && measurement.Measurement? && audit.Audit?
    ensures Names(c, approval, proposal, measurement, audit) <==>
      && approval.proposalId == proposal.proposalId && approval.measurementId == measurement.measurementId
      && approval.evaluatorAuditId == audit.evaluatorAuditId && approval.proposalHash == HashOf(c, proposal)
      && approval.measurementHash == HashOf(c, measurement) && approval.evaluatorAuditHash == HashOf(c, audit)
  {
    var ids, hashes := [approval.proposalId, approval.measurementId, approval.evaluatorAuditId],
      [approval.proposalHash, approval.measurementHash, approval.evaluatorAuditHash];
    assert ids[0] == approval.proposalId && ids[1] == approval.measurementId && ids[2] == approval.evaluatorAuditId;
    assert hashes[0] == approval.proposalHash && hashes[1] == approval.measurementHash && hashes[2] == approval.evaluatorAuditHash;
  }

  lemma MeasuresExactly(approval: Record, proposal: Record, measurement: Record, audit: Record)
    requires approval.Approval? && proposal.Proposal? && measurement.Measurement? && audit.Audit?
    ensures MeasuresTheProposal(approval, proposal, measurement, audit) <==>
      && proposal.measurementId == measurement.measurementId
      && proposal.evaluatorAuditId == measurement.evaluatorAuditId == audit.evaluatorAuditId
      && measurement.changeId == proposal.proposalId && measurement.baseline == proposal.priorRegistry
      && measurement.candidate == proposal.proposedRegistry && measurement.rollbackTarget == proposal.rollbackCommit
      && approval.governingPolicy == measurement.governingPolicy == audit.governingPolicy == proposal.governingPolicy
      && measurement.proposer == audit.proposer == audit.producer == proposal.proposer
      && measurement.evaluator == audit.evaluator && measurement.evaluatorVersion == audit.evaluatorVersion
  {
    var policies, proposers := {approval.governingPolicy, measurement.governingPolicy, audit.governingPolicy},
      {measurement.proposer, audit.proposer, audit.producer};
    assert approval.governingPolicy in policies && measurement.governingPolicy in policies && audit.governingPolicy in policies;
    assert measurement.proposer in proposers && audit.proposer in proposers && audit.producer in proposers;
  }

  /** These are the records stored under the ids the approval names. */
  ghost predicate ReadsSupport(c: Codec, s: Store, approval: Record, proposal: Record, measurement: Record, audit: Record)
  {
    && approval.Approval? && Read(c, s, Proposals, approval.proposalId) == Ok(proposal)
    && Read(c, s, Measurements, approval.measurementId) == Ok(measurement)
    && Read(c, s, Audits, approval.evaluatorAuditId) == Ok(audit)
  }

  /** A record reads back exactly when its file holds its bytes, they parse to it, and the artifact
      under their digest holds the same bytes. */
  lemma ReadExactly(c: Codec, s: Store, kind: Kind, id: string, r: Record)
    ensures Read(c, s, kind, id) == Ok(r) <==>
      && PathOf(c, kind, id) in s.records && s.records[PathOf(c, kind, id)] == c.encode(r)
      && c.decode(kind, c.encode(r)) == Some(r) && IdOf(r) == id
      && c.hash(c.encode(r)) in s.artifacts && s.artifacts[c.hash(c.encode(r))] == c.encode(r)
  {}

  lemma SupportExactly(c: Codec, s: Store, approval: Record)
    requires approval.Approval?
    ensures Supported(c, s, approval) <==> exists proposal: Record, measurement: Record, audit: Record ::
      ReadsSupport(c, s, approval, proposal, measurement, audit) && RestsOn(c, approval, proposal, measurement, audit)
  {
    hide Read, Admits, RestsOn;
    var p, m, e := Read(c, s, Proposals, approval.proposalId), Read(c, s, Measurements, approval.measurementId),
      Read(c, s, Audits, approval.evaluatorAuditId);
    if p.Ok? && m.Ok? && e.Ok? {
      AdmitsExactly(c, p.value, m.value, e.value, approval);
      assert ReadsSupport(c, s, approval, p.value, m.value, e.value);
    }
  }

  /** In any store an approval verifies exactly when it and the three records it names read back, and
      it rests on them. */
  lemma VerifiesExactly(c: Codec, s: Store, approvalId: string)
    ensures Verifies(c, s, approvalId) <==> exists approval: Record, proposal: Record, measurement: Record, audit: Record ::
      && Read(c, s, Approvals, approvalId) == Ok(approval) && ReadsSupport(c, s, approval, proposal, measurement, audit)
      && RestsOn(c, approval, proposal, measurement, audit)
  {
    hide Read, RestsOn, Supported;
    var a := Read(c, s, Approvals, approvalId);
    if a.Ok? && a.value.Approval? {
      SupportExactly(c, s, a.value);
    }
  }

  /** An approval that does not rest on the stored records it names is refused, and the stores stay as
      they were; so is one that names a record that does not read back. */
  lemma UnsupportedApprovalRefused(c: Codec, s: Store, approval: Record)
    requires approval.Approval?
    requires
      var proposal, measurement, audit := Read(c, s, Proposals, approval.proposalId), Read(c, s, Measurements, approval.measurementId),
        Read(c, s, Audits, approval.evaluatorAuditId);
      proposal.Ok? && measurement.Ok? && audit.Ok? ==> !RestsOn(c, approval, proposal.value, measurement.value, audit.value)
    ensures !AppendSucceeds(c, s, approval) && AfterAppend(c, s, approval) == s
  {
    hide Read, RestsOn, Supported;
    SupportExactly(c, s, approval);
  }

  // ---- what a reachable ledger holds ----

  ghost predicate FileReads(c: Codec, s: Store, path: (Kind, Digest), r: Record)
  {
    path == PathOf(c, KindOf(r), IdOf(r)) && path in s.records && Read(c, s, KindOf(r), IdOf(r)) == Ok(r)
  }

  ghost predicate AllRead(c: Codec, s: Store)
  {
    ContentAddressed(c, s) && forall path :: path in s.records ==> exists r: Record :: FileReads(c, s, path, r)
  }

  lemma AppendKeepsReading(c: Codec, s: Store, r: Record)
    requires RoundTrips(c) && CollisionFree(c) && AllRead(c, s)
    ensures AllRead(c, AfterAppend(c, s, r))
  {
    hide RoundTrips, ContentAddressed, Read, AfterAppend, CollisionFree, Extends, AppendSucceeds;
    var s' := AfterAppend(c, s, r);
    AppendExtends(c, s, r);
    if AppendSucceeds(c, s, r) {
      NewRecordReads(c, s, r);
    } else {
      FailedAppendChangesNothing(c, s, r);
    }
    forall path | path in s'.records
      ensures exists x: Record :: FileReads(c, s', path, x)
    {
      if path in s.records {
        var x :| FileReads(c, s, path, x);
        ReadIsStable(c, s, s', KindOf(x), IdOf(x));
        StaysRecorded(s, s', path);
        assert FileReads(c, s', path, x);
      } else {
        assert FileReads(c, s', path, r);
      }
    }
  }

  lemma FailedAppendChangesNothing(c: Codec, s: Store, r: Record)
    requires !AppendSucceeds(c, s, r)
    ensures AfterAppend(c, s, r) == s
  {}

  lemma StaysRecorded(s: Store, s': Store, path: (Kind, Digest))
    requires Extends(s, s') && path in s.records
    ensures path in s'.records
  {}

  lemma NewRecordReads(c: Codec, s: Store, r: Record)
    requires RoundTrips(c) && CollisionFree(c) && ContentAddressed(c, s) && AppendSucceeds(c, s, r)
    ensures ContentAddressed(c, AfterAppend(c, s, r)) && Read(c, AfterAppend(c, s, r), KindOf(r), IdOf(r)) == Ok(r)
  {
    AppendedReadsBack(c, s, r);
  }

  lemma {:induction false} ReachableRecordsRead(c: Codec, rs: seq<Record>)
    requires RoundTrips(c) && CollisionFree(c)
    ensures AllRead(c, AfterAll(c, EMPTY, rs))
  {
    hide RoundTrips, CollisionFree, AllRead, AfterAppend;
    if rs == [] {
      EmptyReads(c);
    } else {
      ReachableRecordsRead(c, rs[..|rs| - 1]);
      AppendKeepsReading(c, AfterAll(c, EMPTY, rs[..|rs| - 1]), rs[|rs| - 1]);
    }
  }

  lemma EmptyReads(c: Codec)
    ensures AllRead(c, EMPTY)
  {}

  lemma FreeOrSame(c: Codec, s: Store, r: Record)
    requires RoundTrips(c) && CollisionFree(c) && AllRead(c, s) && Validates(c, r)
    ensures
      var path := PathOf(c, KindOf(r), IdOf(r));
      (path in s.records ==> s.records[path] == c.encode(r)) <==> forall stored :: Read(c, s, KindOf(r), IdOf(r)) == Ok(stored) ==> stored == r
  {
    var path := PathOf(c, KindOf(r), IdOf(r));
    if path in s.records {
      var x :| FileReads(c, s, path, x);
      ReadExactly(c, s, KindOf(x), IdOf(x), x);
      hide Read, Validates;
      assert IdOf(x) == IdOf(r) && KindOf(x) == KindOf(r);
      if s.records[path] == c.encode(r) {
        SameBytesSameRecord(c, KindOf(r), x, r);
      }
    } else {
      assert Read(c, s, KindOf(r), IdOf(r)).Raised?;
    }
  }

  lemma SameBytesSameRecord(c: Codec, kind: Kind, x: Record, r: Record)
    requires RoundTrips(c) && Validates(c, r) && kind == KindOf(r) && c.decode(kind, c.encode(x)) == Some(x) && c.encode(x) == c.encode(r)
    ensures x == r
  {}

  /** What may be appended after any sequence of appends: a valid record, resting on what it names if
      it is an approval, that does not change a stored record of its kind and id. */
  lemma AppendSucceedsExactly(c: Codec, rs: seq<Record>, r: Record)
    requires RoundTrips(c) && CollisionFree(c)
    ensures
      var s := AfterAll(c, EMPTY, rs);
      AppendSucceeds(c, s, r) <==>
        && c.wellFormed(r) && (r.Approval? ==> r.approver.kind == Human) && (r.Proposal? ==> r.priorRegistry != r.proposedRegistry)
        && (r.Approval? ==> exists proposal: Record, measurement: Record, audit: Record ::
              ReadsSupport(c, s, r, proposal, measurement, audit) && RestsOn(c, r, proposal, measurement, audit))
        && (forall stored :: Read(c, s, KindOf(r), IdOf(r)) == Ok(stored) ==> stored == r)
  {
    hide AfterAll, RestsOn, Read, Supported, ReadsSupport, RoundTrips, CollisionFree, AllRead;
    var s := AfterAll(c, EMPTY, rs);
    ReachableRecordsRead(c, rs);
    PutSucceeds(c, s, c.encode(r));
    if r.Approval? {
      SupportExactly(c, s, r);
    }
    if Validates(c, r) {
      FreeOrSame(c, s, r);
    }
  }

  lemma PutSucceeds(c: Codec, s: Store, data: Bytes)
    requires AllRead(c, s)
    ensures Put(c, s.artifacts, data).Ok?
  {}
}
