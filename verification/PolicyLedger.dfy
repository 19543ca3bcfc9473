/** The first-writer-wins, content-addressed ledger of quality-policy governance records. */
module PolicyLedger {
  import opened Common

  type Bytes = string
  type Digest = string

  datatype ActorKind = Human | Model | Tool | Service

  datatype Actor = Actor(
    actorId: string, kind: ActorKind, provider: Option<string>, model: Option<string>,
    adapter: Option<string>, configuration: Option<Digest>)

  /** Fails closed when ids or any declared operational identity coincide. */
  predicate Independent(a: Actor, b: Actor)
  {
    && a.actorId != b.actorId
    && !Correlated(a.provider, b.provider)
    && !Correlated(a.model, b.model)
    && !Correlated(a.adapter, b.adapter)
    && !Correlated(a.configuration, b.configuration)
  }

  predicate Correlated(a: Option<string>, b: Option<string>)
  {
    a.Some? && b.Some? && a.value == b.value
  }

  /** The fields the ledger links on; `body` stands for the rest of each record. */
  datatype Record =
    | Proposal(proposalId: string, proposer: Actor, priorRegistry: Digest, proposedRegistry: Digest,
               governingPolicy: Digest, measurementId: string, evaluatorAuditId: string,
               rollbackCommit: string, body: string)
    | Measurement(measurementId: string, changeId: string, proposer: Actor, evaluator: Actor,
                  evaluatorVersion: string, baseline: string, candidate: string, rollbackTarget: string,
                  evaluatorAuditId: string, accepted: bool, authority: Actor, governingPolicy: Digest, body: string)
    | Audit(evaluatorAuditId: string, auditor: Actor, evaluator: Actor, evaluatorVersion: string,
            proposer: Actor, producer: Actor, declaredIndependent: bool, passed: bool,
            governingPolicy: Digest, body: string)
    | Approval(approvalId: string, proposalId: string, proposalHash: Digest, measurementId: string,
               measurementHash: Digest, evaluatorAuditId: string, evaluatorAuditHash: Digest,
               approver: Actor, governingPolicy: Digest, body: string)

  datatype Kind = Proposals | Measurements | Audits | Approvals

  function KindOf(r: Record): Kind
  {
    match r
    case Proposal(_, _, _, _, _, _, _, _, _) => Proposals
    case Measurement(_, _, _, _, _, _, _, _, _, _, _, _, _) => Measurements
    case Audit(_, _, _, _, _, _, _, _, _, _) => Audits
    case Approval(_, _, _, _, _, _, _, _, _, _) => Approvals
  }

  function IdOf(r: Record): string
  {
    match r
    case Proposal(id, _, _, _, _, _, _, _, _) => id
    case Measurement(id, _, _, _, _, _, _, _, _, _, _, _, _) => id
    case Audit(id, _, _, _, _, _, _, _, _, _) => id
    case Approval(id, _, _, _, _, _, _, _, _, _) => id
  }

  /** Canonical JSON, its parser, SHA-256 and the record validators, all uninterpreted. */
  datatype Codec = Codec(
    encode: Record -> Bytes,
    decode: (Kind, Bytes) -> Option<Record>,
    hash: Bytes -> Digest,
    wellFormed: Record -> bool)

  predicate Validates(c: Codec, r: Record)
  {
    && c.wellFormed(r)
    && (r.Approval? ==> r.approver.kind == Human)
    && (r.Proposal? ==> r.priorRegistry != r.proposedRegistry)
  }

  /** Parsing canonical bytes gives the validated record back. */
  ghost predicate RoundTrips(c: Codec)
  {
    forall r :: Validates(c, r) ==> c.decode(KindOf(r), c.encode(r)) == Some(r)
  }

  ghost predicate CollisionFree(c: Codec)
  {
    forall a, b :: c.hash(a) == c.hash(b) ==> a == b
  }

  function HashOf(c: Codec, r: Record): Digest
  {
    c.hash(c.encode(r))
  }

  /** One complete chain is admitted. */
  predicate Admits(c: Codec, proposal: Record, measurement: Record, audit: Record, approval: Record)
  {
    && proposal.Proposal? && measurement.Measurement? && audit.Audit? && approval.Approval?
    && approval.proposalId == proposal.proposalId
    && approval.proposalHash == HashOf(c, proposal)
    && approval.measurementId == proposal.measurementId == measurement.measurementId
    && approval.measurementHash == HashOf(c, measurement)
    && approval.evaluatorAuditId == proposal.evaluatorAuditId == measurement.evaluatorAuditId == audit.evaluatorAuditId
    && approval.evaluatorAuditHash == HashOf(c, audit)
    && measurement.changeId == proposal.proposalId
    && measurement.proposer == proposal.proposer == audit.proposer
    && audit.producer == proposal.proposer
    && measurement.evaluator == audit.evaluator
    && measurement.evaluatorVersion == audit.evaluatorVersion
    && measurement.baseline == proposal.priorRegistry
    && measurement.candidate == proposal.proposedRegistry
    && measurement.rollbackTarget == proposal.rollbackCommit
    && approval.governingPolicy == proposal.governingPolicy == measurement.governingPolicy == audit.governingPolicy
    && audit.passed && measurement.accepted && measurement.authority.kind == Human
    && approval.approver == measurement.authority
    && Independent(audit.auditor, audit.evaluator)
    && Independent(audit.auditor, audit.proposer)
    && Independent(audit.auditor, audit.producer)
    && audit.declaredIndependent
    && Independent(approval.approver, audit.evaluator)
    && Independent(approval.approver, audit.proposer)
    && Independent(approval.approver, audit.producer)
    && Independent(approval.approver, audit.auditor)
  }

  /** The record files, keyed by folder and hashed id, and the artifact files, keyed by digest. */
  datatype Store = Store(records: map<(Kind, Digest), Bytes>, artifacts: map<Digest, Bytes>)

  const EMPTY := Store(map[], map[])

  function PathOf(c: Codec, kind: Kind, id: string): (Kind, Digest)
  {
    (kind, c.hash(id))
  }

  /** Reading back one record: the file exists, is canonical, carries its id, and equals the
      artifact its own digest names. */
  function Read(c: Codec, s: Store, kind: Kind, id: string): Result<Record>
  {
    var path := PathOf(c, kind, id);
    if path !in s.records then Raised
    else
      var raw := s.records[path];
      var parsed := c.decode(kind, raw);
      if parsed.None? || c.encode(parsed.value) != raw || IdOf(parsed.value) != id then Raised
      else
        var digest := c.hash(raw);
        if digest !in s.artifacts || |s.artifacts[digest]| != |raw| || c.hash(s.artifacts[digest]) != digest
           || s.artifacts[digest] != raw
        then Raised
        else Ok(parsed.value)
  }

  /** The stored chain behind an approval is complete and admitted. */
  predicate Supported(c: Codec, s: Store, approval: Record)
    requires approval.Approval?
  {
    var proposal := Read(c, s, Proposals, approval.proposalId);
    var measurement := Read(c, s, Measurements, approval.measurementId);
    var audit := Read(c, s, Audits, approval.evaluatorAuditId);
    && proposal.Ok? && measurement.Ok? && audit.Ok?
    && Admits(c, proposal.value, measurement.value, audit.value, approval)
  }

  predicate Verifies(c: Codec, s: Store, approvalId: string)
  {
    var approval := Read(c, s, Approvals, approvalId);
    approval.Ok? && approval.value.Approval? && Supported(c, s, approval.value)
  }

  /** Storing bytes under their digest keeps an existing file whose digest agrees. */
  function Put(c: Codec, artifacts: map<Digest, Bytes>, data: Bytes): Result<map<Digest, Bytes>>
  {
    var digest := c.hash(data);
    if digest in artifacts
    then if c.hash(artifacts[digest]) == digest then Ok(artifacts) else Raised
    else Ok(artifacts[digest := data])
  }

  predicate AppendSucceeds(c: Codec, s: Store, r: Record)
  {
    && Validates(c, r)
    && (r.Approval? ==> Supported(c, s, r))
    && var path := PathOf(c, KindOf(r), IdOf(r));
    && (path in s.records ==> s.records[path] == c.encode(r))
    && Put(c, s.artifacts, c.encode(r)).Ok?
  }

  /** The record file is a hard link to the artifact file its digest names. */
  function AfterAppend(c: Codec, s: Store, r: Record): Store
  {
    if !AppendSucceeds(c, s, r) then s
    else
      var artifacts := Put(c, s.artifacts, c.encode(r)).value;
      var path := PathOf(c, KindOf(r), IdOf(r));
      if path in s.records then Store(s.records, artifacts)
      else Store(s.records[path := artifacts[c.hash(c.encode(r))]], artifacts)
  }

  function AfterAll(c: Codec, s: Store, rs: seq<Record>): Store
  {
    if rs == [] then s else AfterAppend(c, AfterAll(c, s, rs[..|rs| - 1]), rs[|rs| - 1])
  }

  class Ledger {
    const codec: Codec
    var records: map<(Kind, Digest), Bytes>
    var artifacts: map<Digest, Bytes>

    function Contents(): Store
      reads this
    {
      Store(records, artifacts)
    }

    constructor (codec: Codec)
      ensures Contents() == EMPTY && this.codec == codec
    {
      this.codec := codec;
      records, artifacts := map[], map[];
    }

    /** Returns the digest the record is stored under. */
    method Append(r: Record) returns (result: Result<Digest>)
      modifies this
      ensures Contents() == AfterAppend(codec, old(Contents()), r)
      ensures result == if AppendSucceeds(codec, old(Contents()), r) then Ok(HashOf(codec, r)) else Raised
    {
      if !Validates(codec, r) {
        return Raised;
      }
      if r.Approval? {
        var admitted := AdmitPersisted(r);
        if !admitted {
          return Raised;
        }
      }
      var data := codec.encode(r);
      var target := PathOf(codec, KindOf(r), IdOf(r));
      if target in records && records[target] != data {
        return Raised;
      }
      var stored := Put(codec, artifacts, data);
      if stored.Raised? {
        return Raised;
      }
      artifacts := stored.value;
      if target !in records {
        records := records[target := artifacts[codec.hash(data)]];
      }
      return Ok(codec.hash(data));
    }

    method AdmitPersisted(approval: Record) returns (admitted: bool)
      requires approval.Approval?
      ensures admitted == Supported(codec, Contents(), approval)
    {
      var proposal := Read(codec, Contents(), Proposals, approval.proposalId);
      if proposal.Raised? {
        return false;
      }
      var measurement := Read(codec, Contents(), Measurements, approval.measurementId);
      if measurement.Raised? {
        return false;
      }
      var audit := Read(codec, Contents(), Audits, approval.evaluatorAuditId);
      if audit.Raised? {
        return false;
      }
      return Admits(codec, proposal.value, measurement.value, audit.value, approval);
    }

    method VerifyApproval(approvalId: string) returns (verified: bool)
      ensures verified == Verifies(codec, Contents(), approvalId)
    {
      var approval := Read(codec, Contents(), Approvals, approvalId);
      if approval.Raised? || !approval.value.Approval? {
        return false;
      }
      verified := AdmitPersisted(approval.value);
    }
  }

  // ---- stability ----

  ghost predicate Extends(s: Store, s': Store)
  {
    && (forall k :: k in s.records ==> k in s'.records && s'.records[k] == s.records[k])
    && (forall d :: d in s.artifacts ==> d in s'.artifacts && s'.artifacts[d] == s.artifacts[d])
  }

  lemma {:induction false} HistoryExtends(c: Codec, s: Store, rs: seq<Record>)
    ensures Extends(s, AfterAll(c, s, rs))
  {
    if rs != [] {
      HistoryExtends(c, s, rs[..|rs| - 1]);
    }
  }

  lemma ReadIsStable(c: Codec, s: Store, s': Store, kind: Kind, id: string)
    requires Extends(s, s')
    ensures Read(c, s, kind, id).Ok? ==> Read(c, s', kind, id) == Read(c, s, kind, id)
  {}

  lemma SupportIsStable(c: Codec, s: Store, s': Store, approval: Record)
    requires Extends(s, s') && approval.Approval? && Supported(c, s, approval)
    ensures Supported(c, s', approval)
  {}

  /** An approval that verifies once verifies after every later sequence of appends, failed or
      not, and reads back as the same record. No assumption on the hash is needed. */
  lemma {:induction false} VerifiedForever(c: Codec, s: Store, approvalId: string, later: seq<Record>)
    requires Verifies(c, s, approvalId)
    ensures Verifies(c, AfterAll(c, s, later), approvalId)
    ensures Read(c, AfterAll(c, s, later), Approvals, approvalId) == Read(c, s, Approvals, approvalId)
  {
    var s' := AfterAll(c, s, later);
    HistoryExtends(c, s, later);
    ReadIsStable(c, s, s', Approvals, approvalId);
    SupportIsStable(c, s, s', Read(c, s, Approvals, approvalId).value);
  }

  /** First writer wins: once a record is stored, an append that reuses its kind and id with
      other content fails and changes nothing, at any later time. */
  lemma FirstWriterWins(c: Codec, s: Store, first: Record, later: seq<Record>, second: Record)
    requires AppendSucceeds(c, s, first)
    requires PathOf(c, KindOf(first), IdOf(first)) in s.records || c.hash(c.encode(first)) !in s.artifacts
    requires KindOf(second) == KindOf(first) && IdOf(second) == IdOf(first)
    requires c.encode(second) != c.encode(first)
    ensures
      var s' := AfterAll(c, AfterAppend(c, s, first), later);
      !AppendSucceeds(c, s', second) && AfterAppend(c, s', second) == s'
  {
    var s1 := AfterAppend(c, s, first);
    HistoryExtends(c, s1, later);
    assert s1.records[PathOf(c, KindOf(first), IdOf(first))] == c.encode(first);
  }

  // ---- every stored approval is supported ----

  ghost predicate AllApprovalsSupported(c: Codec, s: Store)
  {
    forall path :: path in s.records && path.0 == Approvals ==>
      exists a: Record :: IsStoredApproval(c, s, path, a)
  }

  ghost predicate IsStoredApproval(c: Codec, s: Store, path: (Kind, Digest), a: Record)
  {
    && a.Approval? && path == PathOf(c, Approvals, a.approvalId)
    && path in s.records && s.records[path] == c.encode(a)
    && Verifies(c, s, a.approvalId)
  }

  ghost predicate ContentAddressed(c: Codec, s: Store)
  {
    forall d :: d in s.artifacts ==> c.hash(s.artifacts[d]) == d
  }

  lemma AppendedReadsBack(c: Codec, s: Store, r: Record)
    requires RoundTrips(c) && ContentAddressed(c, s) && AppendSucceeds(c, s, r)
    requires c.hash(c.encode(r)) in s.artifacts ==> s.artifacts[c.hash(c.encode(r))] == c.encode(r)
    ensures Read(c, AfterAppend(c, s, r), KindOf(r), IdOf(r)) == Ok(r)
    ensures ContentAddressed(c, AfterAppend(c, s, r))
  {}

  lemma OldApprovalStays(c: Codec, s: Store, s': Store, path: (Kind, Digest))
    requires RoundTrips(c) && Extends(s, s') && path in s.records && path.0 == Approvals && AllApprovalsSupported(c, s)
    ensures exists a: Record :: IsStoredApproval(c, s', path, a)
  {
    var a :| IsStoredApproval(c, s, path, a);
    ReadIsStable(c, s, s', Approvals, a.approvalId);
    SupportIsStable(c, s, s', Read(c, s, Approvals, a.approvalId).value);
    assert IsStoredApproval(c, s', path, a);
  }

  lemma NewApprovalStored(c: Codec, s: Store, s': Store, r: Record)
    requires r.Approval? && Extends(s, s') && Supported(c, s, r) && Read(c, s', Approvals, r.approvalId) == Ok(r)
    ensures IsStoredApproval(c, s', PathOf(c, Approvals, r.approvalId), r)
  {
    SupportIsStable(c, s, s', r);
    hide Supported;
  }

  lemma AppendExtends(c: Codec, s: Store, r: Record)
    ensures Extends(s, AfterAppend(c, s, r))
    ensures forall path :: path in AfterAppend(c, s, r).records ==> path in s.records || (AppendSucceeds(c, s, r) && path == PathOf(c, KindOf(r), IdOf(r)))
  {
    hide Supported, Validates;
  }

  lemma AppendKeepsSupport(c: Codec, s: Store, r: Record)
    requires RoundTrips(c) && CollisionFree(c)
    requires ContentAddressed(c, s) && AllApprovalsSupported(c, s)
    ensures ContentAddressed(c, AfterAppend(c, s, r)) && AllApprovalsSupported(c, AfterAppend(c, s, r))
  {
    var s' := AfterAppend(c, s, r);
    AppendExtends(c, s, r);
    if AppendSucceeds(c, s, r) {
      AppendedReadsBack(c, s, r);
      hide RoundTrips, ContentAddressed, Read, AfterAppend, Extends, IsStoredApproval, Supported, CollisionFree;
      forall path | path in s'.records && path.0 == Approvals
        ensures exists a: Record :: IsStoredApproval(c, s', path, a)
      {
        if path in s.records {
          OldApprovalStays(c, s, s', path);
        } else {
          assert r.Approval?;
          NewApprovalStored(c, s, s', r);
        }
      }
    }
  }

  lemma {:induction false} ReachableApprovalsSupported(c: Codec, rs: seq<Record>)
    requires RoundTrips(c) && CollisionFree(c)
    ensures ContentAddressed(c, AfterAll(c, EMPTY, rs))
    ensures AllApprovalsSupported(c, AfterAll(c, EMPTY, rs))
  {
    if rs != [] {
      ReachableApprovalsSupported(c, rs[..|rs| - 1]);
      AppendKeepsSupport(c, AfterAll(c, EMPTY, rs[..|rs| - 1]), rs[|rs| - 1]);
    }
  }

  /** When an admitted append really verifies: the artifact already stored under the record's
      digest, if any, must hold the record's own bytes. A collision is the only way out. */
  lemma AppendedApprovalVerifiesExactly(c: Codec, s: Store, a: Record)
    requires RoundTrips(c) && ContentAddressed(c, s)
    requires a.Approval? && AppendSucceeds(c, s, a)
    requires PathOf(c, Approvals, a.approvalId) !in s.records
    ensures Read(c, AfterAppend(c, s, a), Approvals, a.approvalId) == Ok(a) && Verifies(c, AfterAppend(c, s, a), a.approvalId)
       <==> (c.hash(c.encode(a)) in s.artifacts ==> s.artifacts[c.hash(c.encode(a))] == c.encode(a))
  {}

  // ---- independence of authority ----

  /** In an admitted chain every two of proposer, evaluator, auditor and approver are
      independent, except that nothing separates the evaluator from the proposer: the whole
      chain is pairwise independent exactly when those two are. */
  lemma PairwiseIndependentExactly(c: Codec, proposal: Record, measurement: Record, audit: Record, approval: Record)
    requires Admits(c, proposal, measurement, audit, approval)
    ensures
      var actors := [proposal.proposer, measurement.evaluator, audit.auditor, approval.approver];
      (forall i, j :: 0 <= i < j < 4 ==> Independent(actors[i], actors[j]))
      <==> Independent(measurement.evaluator, proposal.proposer)
  {
    var actors := [proposal.proposer, measurement.evaluator, audit.auditor, approval.approver];
    if Independent(measurement.evaluator, proposal.proposer) {
      assert Independent(actors[0], actors[1]) && Independent(actors[0], actors[2]) && Independent(actors[0], actors[3]);
      assert Independent(actors[1], actors[2]) && Independent(actors[1], actors[3]) && Independent(actors[2], actors[3]);
    }
    if forall i, j :: 0 <= i < j < 4 ==> Independent(actors[i], actors[j]) {
      assert Independent(actors[0], actors[1]);
    }
  }

  // ---- what a ledger can come to hold ----

  ghost predicate NoneOfKind(s: Store, kind: Kind)
  {
    forall path :: path in s.records ==> path.0 != kind
  }

  /** The first record of its kind is stored and reads back; the other kinds are left alone. */
  lemma FirstOfKindReadsBack(c: Codec, s: Store, r: Record)
    requires RoundTrips(c) && CollisionFree(c) && ContentAddressed(c, s) && NoneOfKind(s, KindOf(r))
    requires Validates(c, r) && (r.Approval? ==> Supported(c, s, r))
    ensures
      var s' := AfterAppend(c, s, r);
      && Extends(s, s') && ContentAddressed(c, s') && Read(c, s', KindOf(r), IdOf(r)) == Ok(r)
      && forall kind :: kind != KindOf(r) && NoneOfKind(s, kind) ==> NoneOfKind(s', kind)
  {
    hide Supported, Validates, Read;
    AppendedReadsBack(c, s, r);
    AppendExtends(c, s, r);
  }

  lemma NothingStored(c: Codec)
    ensures ContentAddressed(c, EMPTY) && forall kind :: NoneOfKind(EMPTY, kind)
  {}

  lemma SupportingRecordsStored(c: Codec, proposal: Record, measurement: Record, audit: Record, approval: Record)
    requires RoundTrips(c) && CollisionFree(c) && Admits(c, proposal, measurement, audit, approval)
    requires Validates(c, proposal) && Validates(c, measurement) && Validates(c, audit)
    ensures
      var s := AfterAppend(c, AfterAppend(c, AfterAppend(c, EMPTY, proposal), measurement), audit);
      Supported(c, s, approval) && ContentAddressed(c, s) && NoneOfKind(s, Approvals)
  {
    hide RoundTrips, CollisionFree, ContentAddressed, AfterAppend, Read, Validates, Extends, NoneOfKind;
    var s1 := AfterAppend(c, EMPTY, proposal);
    var s2 := AfterAppend(c, s1, measurement);
    var s3 := AfterAppend(c, s2, audit);
    NothingStored(c);
    FirstOfKindReadsBack(c, EMPTY, proposal);
    FirstOfKindReadsBack(c, s1, measurement);
    FirstOfKindReadsBack(c, s2, audit);
    ReadIsStable(c, s1, s2, Proposals, proposal.proposalId);
    ReadIsStable(c, s2, s3, Proposals, proposal.proposalId);
    ReadIsStable(c, s2, s3, Measurements, measurement.measurementId);
  }

  /** Every admitted chain of valid records can be stored in an empty ledger, supporting records
      first, and its approval then verifies. */
  lemma AdmittedChainVerifies(c: Codec, proposal: Record, measurement: Record, audit: Record, approval: Record)
    requires RoundTrips(c) && CollisionFree(c) && Admits(c, proposal, measurement, audit, approval)
    requires Validates(c, proposal) && Validates(c, measurement) && Validates(c, audit) && Validates(c, approval)
    ensures
      var ledger := AfterAppend(c, AfterAppend(c, AfterAppend(c, AfterAppend(c, EMPTY, proposal), measurement), audit), approval);
      Verifies(c, ledger, approval.approvalId) && Read(c, ledger, Approvals, approval.approvalId) == Ok(approval)
  {
    hide RoundTrips, CollisionFree, ContentAddressed, AfterAppend, Read, Validates, Extends, NoneOfKind, Supported;
    var s := AfterAppend(c, AfterAppend(c, AfterAppend(c, EMPTY, proposal), measurement), audit);
    SupportingRecordsStored(c, proposal, measurement, audit, approval);
    FirstOfKindReadsBack(c, s, approval);
    SupportIsStable(c, s, AfterAppend(c, s, approval), approval);
  }

  /** What a chain is about, apart from its actors. */
  datatype Terms = Terms(
    proposalId: string, measurementId: string, auditId: string, approvalId: string, version: string,
    prior: Digest, proposed: Digest, governing: Digest, commit: string,
    proposalBody: string, measurementBody: string, auditBody: string, approvalBody: string)

  /** A chain in which the proposer is the evaluator. */
  function SelfEvaluated(c: Codec, t: Terms, worker: Actor, auditor: Actor, human: Actor): (Record, Record, Record, Record)
  {
    var p := Proposal(t.proposalId, worker, t.prior, t.proposed, t.governing, t.measurementId, t.auditId, t.commit, t.proposalBody);
    var m := Measurement(t.measurementId, t.proposalId, worker, worker, t.version, t.prior, t.proposed, t.commit, t.auditId, true, human,
                         t.governing, t.measurementBody);
    var e := Audit(t.auditId, auditor, worker, t.version, worker, worker, true, true, t.governing, t.auditBody);
    var a := Approval(t.approvalId, t.proposalId, HashOf(c, p), t.measurementId, HashOf(c, m), t.auditId, HashOf(c, e), human, t.governing,
                      t.approvalBody);
    (p, m, e, a)
  }

  /** A proposer may evaluate its own proposal: whenever the auditor and the human are independent
      of it and of each other and the records are well formed, the ledger stores the whole chain
      and verifies the approval. */
  lemma SelfEvaluationIsAdmitted(c: Codec, t: Terms, worker: Actor, auditor: Actor, human: Actor)
    requires RoundTrips(c) && CollisionFree(c) && t.prior != t.proposed && human.kind == Human
    requires Independent(auditor, worker) && Independent(human, worker) && Independent(human, auditor)
    requires
      var (p, m, e, a) := SelfEvaluated(c, t, worker, auditor, human);
      c.wellFormed(p) && c.wellFormed(m) && c.wellFormed(e) && c.wellFormed(a)
    ensures
      var (p, m, e, a) := SelfEvaluated(c, t, worker, auditor, human);
      && m.evaluator == p.proposer
      && Verifies(c, AfterAppend(c, AfterAppend(c, AfterAppend(c, AfterAppend(c, EMPTY, p), m), e), a), a.approvalId)
  {
    hide RoundTrips, CollisionFree, AfterAppend, Verifies, Read;
    var (p, m, e, a) := SelfEvaluated(c, t, worker, auditor, human);
    AdmittedChainVerifies(c, p, m, e, a);
  }
}
