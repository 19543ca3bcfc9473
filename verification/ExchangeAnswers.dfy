/** What the coordinator answers to a submission, in terms of the stored log: when a retained key
    replays, when it is refused, and what an import of records under retained keys does. */
module ExchangeAnswers {
  import opened Common
  import opened Ordering
  import opened WorkspaceExchange
  import opened ExchangeProofs
  import opened ExchangePrefix
  import opened ExchangeReproduction
  import opened ExchangeImport

  // ---- one event more ----

  /** The workspace with one more audit event, spelled out; nothing else changes. */
  function WithEvent(k: Kernel, ws: Workspace, p: Proposal, d: Decision, configured: Policy, persisted: bool, fingerprint: Option<Digest>, at: Time): Workspace
    requires ws.active.Some?
  {
    var previous := if ws.audit == [] then GENESIS else ws.audit[|ws.audit| - 1].hash;
    var payload := Payload(p, d, ws.active.value, if configured in ws.policies then Some(configured) else None, persisted, fingerprint);
    ws.(audit := ws.audit + [Event(|ws.audit| + 1, at, payload, previous, k.eventHash(Envelope(|ws.audit| + 1, at, payload, previous)))])
  }

  /** The coordinator's refusal of a reused key: an invalid attempt, audited and not stored. */
  function RefusedAttempt(k: Kernel, ws: Workspace, configured: Policy, r: Record, at: Time): Workspace
    requires ws.active.Some?
  {
    WithEvent(k, ws, Invalid(r.id, r.proposal.key, REUSED_ATTEMPT), KeyRefusal(r), configured, false, FingerprintOf(k, r), at)
  }

  function KeyRefusal(r: Record): Decision
  {
    Decision(r.id, false, false, [Reason(IdempotencyConflict, REUSED_ATTEMPT)])
  }

  // ---- retained keys ----

  /** This audit event recorded the transaction, in the place and under the policy the record names. */
  predicate RecordedAs(e: Event, t: Stored, r: Record)
    requires r.intent.Some?
  {
    && e.payload.persisted && e.payload.proposal == t.proposal && e.payload.decision == t.decision
    && e.sequence == r.intent.value.eventSequence && e.hash == r.intent.value.eventHash && e.payload.policyHash == r.governing
  }

  /** The retained transaction is the record's own: by content hash, id, decision, fingerprint and
      audit event; a legacy record carries an id and the content its fingerprint is computed from. */
  ghost predicate Own(k: Kernel, ws: Workspace, t: Stored, r: Record)
  {
    && r.id == t.proposal.id
    && (if r.intent.None? then t.fingerprint == Some(k.attemptFingerprint(r.proposal))
        else
          && r.hash == k.proposalHash(t.proposal) && r.expected == t.decision && r.intent.value.fingerprint == t.fingerprint
          && exists j :: 0 <= j < |ws.audit| && RecordedAs(ws.audit[j], t, r))
  }

  lemma EventsOf(k: Kernel, ws: Workspace, t: Stored, r: Record, j: nat)
    requires Chained(k, ws.audit) && r.intent.Some? && r.expected == t.decision && j < |ws.audit| && RecordedAs(ws.audit[j], t, r)
    ensures |Filter(Matching(t.proposal, r), ws.audit)| == 1
  {
    ChainSequences(k, ws.audit);
    assert OnlyAt(Matching(t.proposal, r), ws.audit, j);
    FilterSingleton(Matching(t.proposal, r), ws.audit);
  }

  lemma MatchedEvent(k: Kernel, ws: Workspace, t: Stored, r: Record) returns (j: nat)
    requires r.intent.Some? && r.expected == t.decision && |Filter(Matching(t.proposal, r), ws.audit)| == 1
    ensures j < |ws.audit| && RecordedAs(ws.audit[j], t, r)
  {
    FilterSingleton(Matching(t.proposal, r), ws.audit);
    j :| OnlyAt(Matching(t.proposal, r), ws.audit, j);
  }

  lemma ReplaysExactly(k: Kernel, boot: Policy, ws: Workspace, i: nat, r: Record)
    requires Lawful(k) && Sound(k, boot, ws) && i < |ws.stored| && r.proposal.key == ws.stored[i].proposal.key
    ensures ByKey(ws.stored, r.proposal.key) == Some(ws.stored[i])
    ensures Replays(k, ws, ws.stored[i], r) <==> Own(k, ws, ws.stored[i], r)
  {
    hide Governed, AllGoverned, PoliciesAfter, ActiveAfter, AcceptedOf, Persisted, Filter, StoredOf, Lawful, Chained;
    var t := ws.stored[i];
    ByKeyAt(ws.stored, i);
    StoredNeverConflicts(k, boot, ws, i);
    if r.intent.Some? && r.expected == t.decision {
      if Replays(k, ws, t, r) {
        var j := MatchedEvent(k, ws, t, r);
      }
      if Own(k, ws, t, r) {
        var j: nat :| j < |ws.audit| && RecordedAs(ws.audit[j], t, r);
        EventsOf(k, ws, t, r, j);
      }
    }
  }

  /** A submission under a retained key replays its transaction exactly when that is the record's own;
      in every other case one refusal is audited and nothing is stored. */
  lemma RetainedKeyAnswers(k: Kernel, boot: Policy, ws: Workspace, i: nat, configured: Policy, r: Record, at: Time)
    requires Lawful(k) && Sound(k, boot, ws) && i < |ws.stored| && r.proposal.key == ws.stored[i].proposal.key
    ensures ws.active.Some?
    ensures SubmitIntent(k, ws, configured, r, at)
         == if Own(k, ws, ws.stored[i], r) then Ok((ws, ws.stored[i].decision.(replayed := true)))
            else Ok((RefusedAttempt(k, ws, configured, r, at), KeyRefusal(r)))
  {
    hide Lawful, Sound, Own, Replays;
    ActiveIsRegistered(k, boot, ws);
    ReplaysExactly(k, boot, ws, i, r);
    RefusalUnstored(k, boot, ws, r);
    RefusalIs(k, ws, configured, r, at);
  }

  lemma RefusalUnstored(k: Kernel, boot: Policy, ws: Workspace, r: Record)
    requires Lawful(k) && Sound(k, boot, ws)
    ensures ByKey(ws.stored, r.proposal.key) != Some(Stored(Invalid(r.id, r.proposal.key, REUSED_ATTEMPT), KeyRefusal(r), FingerprintOf(k, r)))
  {
    hide Sound, Lawful;
    ByKeyMeans(ws.stored, r.proposal.key);
    if ByKey(ws.stored, r.proposal.key).Some? {
      var i :| 0 <= i < |ws.stored| && ws.stored[i] == ByKey(ws.stored, r.proposal.key).value;
      StoredNeverConflicts(k, boot, ws, i);
      assert OwnMessage(REUSED_ATTEMPT) && KeyRefusal(r) == Rejection(r.id, IdempotencyConflict, REUSED_ATTEMPT);
    }
  }

  lemma RefusalIs(k: Kernel, ws: Workspace, configured: Policy, r: Record, at: Time)
    requires ws.active.Some?
    requires ByKey(ws.stored, r.proposal.key) != Some(Stored(Invalid(r.id, r.proposal.key, REUSED_ATTEMPT), KeyRefusal(r), FingerprintOf(k, r)))
    ensures Audited(k, ws, configured, Invalid(r.id, r.proposal.key, REUSED_ATTEMPT), Rejection(r.id, IdempotencyConflict, REUSED_ATTEMPT), FingerprintOf(k, r), at)
         == RefusedAttempt(k, ws, configured, r, at)
    ensures Rejection(r.id, IdempotencyConflict, REUSED_ATTEMPT) == KeyRefusal(r)
  {}

  /** A direct submission under a retained key replays exactly the same content and fingerprint. */
  lemma DirectKeyAnswers(k: Kernel, boot: Policy, ws: Workspace, i: nat, configured: Policy, p: Proposal, fingerprint: Option<Digest>, at: Time)
    requires Lawful(k) && Sound(k, boot, ws) && i < |ws.stored| && p.key == ws.stored[i].proposal.key
    ensures ws.active.Some?
    ensures SubmitLocked(k, ws, configured, p, fingerprint, at)
         == if k.proposalHash(p) == k.proposalHash(ws.stored[i].proposal) && fingerprint == ws.stored[i].fingerprint
            then (ws, ws.stored[i].decision.(replayed := true))
            else
              var refusal := Decision(p.id, false, false, [Reason(IdempotencyConflict, REUSED_CONTENT)]);
              (WithEvent(k, ws, p, refusal, configured, false, fingerprint, at), refusal)
  {
    hide Lawful, Sound;
    ActiveIsRegistered(k, boot, ws);
    SoundKeys(k, boot, ws);
    ByKeyAt(ws.stored, i);
  }

  lemma SoundKeys(k: Kernel, boot: Policy, ws: Workspace)
    requires Sound(k, boot, ws)
    ensures DistinctKeys(ws.stored)
  {}

  // ---- new keys ----

  predicate IdKnown(ws: Workspace, id: Id)
  {
    exists i :: 0 <= i < |ws.stored| && ws.stored[i].proposal.id == id
  }

  const OTHER_POLICY := "stored active policy does not match the configured policy snapshot"
  const KNOWN_ID := "proposal id already exists"

  function Refusal(id: Id, code: Code, message: string): Decision
  {
    Decision(id, false, false, [Reason(code, message)])
  }

  /** What a new key is answered: another policy than the active one is refused first, then a known
      id; otherwise the handler decides. */
  function FreshDecision(k: Kernel, ws: Workspace, configured: Policy, p: Proposal, at: Time): Decision
    requires ws.active.Some?
  {
    if configured != ws.active.value then Refusal(p.id, PolicyHashMismatch, OTHER_POLICY)
    else if IdKnown(ws, p.id) then Refusal(p.id, EntityAlreadyExists, KNOWN_ID)
    else k.decide(ws.accepted, configured, at, p)
  }

  function Candidate(p: Proposal, d: Decision): Option<Policy>
  {
    if d.accepted && p.Authored? then p.candidate else None
  }

  /** What a new key does, given its answer: a known id is only audited; an unknown one is stored, and
      an accepted decision takes effect. */
  ghost predicate FreshResult(k: Kernel, ws: Workspace, configured: Policy, p: Proposal, fingerprint: Option<Digest>, at: Time, known: bool,
                              d: Decision, after: Workspace)
    requires ws.active.Some?
  {
    && after.audit == WithEvent(k, ws, p, d, configured, !known, fingerprint, at).audit
    && after.stored == (if known then ws.stored else ws.stored + [Stored(p, d, fingerprint)])
    && after.accepted == (if known || !d.accepted then ws.accepted else ws.accepted + [Accepted(p, at)])
    && after.policies == (if known || Candidate(p, d).None? then ws.policies else ws.policies + {Candidate(p, d).value})
    && after.active == (if known || Candidate(p, d).None? then ws.active else Candidate(p, d))
  }

  lemma RecordedIsFresh(k: Kernel, ws: Workspace, configured: Policy, p: Proposal, d: Decision, fingerprint: Option<Digest>, at: Time)
    requires ws.active.Some? && ByKey(ws.stored, p.key).None?
    ensures FreshResult(k, ws, configured, p, fingerprint, at, false, d, Recorded(k, ws, configured, p, d, fingerprint, at))
  {
    hide Recorded, ByKey;
    RecordedShape(k, ws, configured, p, d, fingerprint, at);
    assert ws.policies + {} == ws.policies && ws.accepted + [] == ws.accepted;
  }

  lemma AuditedIsFresh(k: Kernel, ws: Workspace, configured: Policy, p: Proposal, d: Decision, fingerprint: Option<Digest>, at: Time)
    requires ws.active.Some? && ByKey(ws.stored, p.key).None?
    ensures FreshResult(k, ws, configured, p, fingerprint, at, true, d, Audited(k, ws, configured, p, d, fingerprint, at))
  {
    hide ByKey;
  }

  /** A submission under a new key: the answer, and what it leaves behind. */
  lemma NewKeyAnswers(k: Kernel, boot: Policy, ws: Workspace, configured: Policy, p: Proposal, fingerprint: Option<Digest>, at: Time)
    requires Lawful(k) && Sound(k, boot, ws) && forall i :: 0 <= i < |ws.stored| ==> ws.stored[i].proposal.key != p.key
    ensures ws.active.Some?
    ensures
      var (after, d) := SubmitLocked(k, ws, configured, p, fingerprint, at);
      d == FreshDecision(k, ws, configured, p, at) && FreshResult(k, ws, configured, p, fingerprint, at, IdKnown(ws, p.id), d, after)
  {
    hide Sound, Lawful, ById, ByKey, FreshResult, Recorded, Audited;
    ActiveIsRegistered(k, boot, ws);
    ByKeyMeans(ws.stored, p.key);
    ByIdMeans(ws.stored, p.id);
    var d := FreshDecision(k, ws, configured, p, at);
    if IdKnown(ws, p.id) {
      AuditedIsFresh(k, ws, configured, p, d, fingerprint, at);
    } else {
      RecordedIsFresh(k, ws, configured, p, d, fingerprint, at);
    }
  }

  /** A submission of a record under a new key gives the same answer; it raises exactly when the answer
      is the expected one and yet the rebuilt transaction or event is not the record's. */
  lemma NewRecordAnswers(k: Kernel, boot: Policy, ws: Workspace, configured: Policy, r: Record, at: Time)
    requires Lawful(k) && Sound(k, boot, ws) && forall i :: 0 <= i < |ws.stored| ==> ws.stored[i].proposal.key != r.proposal.key
    ensures ws.active.Some?
    ensures
      var d := FreshDecision(k, ws, configured, r.proposal, at);
      var event := WithEvent(k, ws, r.proposal, d, configured, true, FingerprintOf(k, r), at).audit[|ws.audit|];
      var submitted := SubmitIntent(k, ws, configured, r, at);
      && (submitted.Raised? <==>
            && r.intent.Some? && d == r.expected
            && !(&& !IdKnown(ws, r.proposal.id) && r.hash == k.proposalHash(r.proposal)
                 && RecordedAs(event, Stored(r.proposal, d, r.intent.value.fingerprint), r)))
      && (submitted.Ok? ==> submitted.value == SubmitLocked(k, ws, configured, r.proposal, FingerprintOf(k, r), at) && submitted.value.1 == d)
  {
    hide Sound, Lawful, SubmitLocked, ReplayMatches, Persisted, FreshResult;
    ActiveIsRegistered(k, boot, ws);
    ByKeyMeans(ws.stored, r.proposal.key);
    NewKeyAnswers(k, boot, ws, configured, r.proposal, FingerprintOf(k, r), at);
    FreshIsFresh(k, ws, configured, r.proposal, at);
    var d := FreshDecision(k, ws, configured, r.proposal, at);
    var after := SubmitLocked(k, ws, configured, r.proposal, FingerprintOf(k, r), at).0;
    if r.intent.Some? && d == r.expected {
      FreshMatches(k, boot, ws, configured, r, at, after, d);
    }
  }

  lemma FreshIsFresh(k: Kernel, ws: Workspace, configured: Policy, p: Proposal, at: Time)
    requires Lawful(k) && ws.active.Some?
    ensures !FreshDecision(k, ws, configured, p, at).replayed
  {
    hide Lawful;
    HandlersAnswerFresh(k, ws.accepted, configured, at, p);
  }

  lemma HandlersAnswerFresh(k: Kernel, history: seq<Accepted>, policy: Policy, at: Time, p: Proposal)
    requires Lawful(k)
    ensures !k.decide(history, policy, at, p).replayed
  {
    hide OwnMessage, Rejection;
  }

  lemma FreshMatches(k: Kernel, boot: Policy, ws: Workspace, configured: Policy, r: Record, at: Time, after: Workspace, d: Decision)
    requires Lawful(k) && Sound(k, boot, ws) && ByKey(ws.stored, r.proposal.key).None? && ws.active.Some?
    requires r.intent.Some? && d == r.expected && d == FreshDecision(k, ws, configured, r.proposal, at)
    requires after == SubmitLocked(k, ws, configured, r.proposal, FingerprintOf(k, r), at).0
    requires FreshResult(k, ws, configured, r.proposal, FingerprintOf(k, r), at, IdKnown(ws, r.proposal.id), d, after)
    ensures
      var event := WithEvent(k, ws, r.proposal, d, configured, true, FingerprintOf(k, r), at).audit[|ws.audit|];
      ReplayMatches(k, after, r.proposal, r) <==>
        && !IdKnown(ws, r.proposal.id) && r.hash == k.proposalHash(r.proposal)
        && RecordedAs(event, Stored(r.proposal, d, r.intent.value.fingerprint), r)
  {
    hide Sound, Lawful, SubmitLocked, FreshDecision, Filter;
    var t := Stored(r.proposal, d, r.intent.value.fingerprint);
    if !IdKnown(ws, r.proposal.id) {
      ByKeySnoc(ws.stored, t);
      LastOfAudit(k, ws, r.proposal, d, configured, FingerprintOf(k, r), at);
      SoundAfter(k, boot, ws, configured, r, at, after);
      if |Filter(Matching(r.proposal, r), after.audit)| == 1 {
        var j := MatchedEvent(k, after, t, r);
        SameEvent(k, boot, ws, after, t, r, j);
      }
      if RecordedAs(after.audit[|ws.audit|], t, r) {
        EventsOf(k, after, t, r, |ws.audit|);
      }
    }
  }

  lemma LastOfAudit(k: Kernel, ws: Workspace, p: Proposal, d: Decision, configured: Policy, fingerprint: Option<Digest>, at: Time)
    requires ws.active.Some?
    ensures |WithEvent(k, ws, p, d, configured, true, fingerprint, at).audit| == |ws.audit| + 1
    ensures WithEvent(k, ws, p, d, configured, true, fingerprint, at).audit[..|ws.audit|] == ws.audit
  {}

  lemma SoundAfter(k: Kernel, boot: Policy, ws: Workspace, configured: Policy, r: Record, at: Time, after: Workspace)
    requires Lawful(k) && Sound(k, boot, ws) && after == SubmitLocked(k, ws, configured, r.proposal, FingerprintOf(k, r), at).0
    ensures Chained(k, after.audit)
  {
    hide Lawful, SubmitLocked;
    SubmitLockedKeepsSound(k, boot, ws, configured, r.proposal, FingerprintOf(k, r), at);
  }

  lemma UnrecordedKey(k: Kernel, boot: Policy, ws: Workspace, key: Id, j: nat)
    requires Sound(k, boot, ws) && ByKey(ws.stored, key).None? && j < |ws.audit| && ws.audit[j].payload.persisted
    ensures ws.audit[j].payload.proposal.key != key
  {
    hide Governed, AllGoverned, PoliciesAfter, ActiveAfter, AcceptedOf, Chained, DistinctKeys, Persisted;
    PersistedHolds(ws.audit, j);
    var i :| 0 <= i < |Persisted(ws.audit)| && Persisted(ws.audit)[i] == ws.audit[j];
    ByKeyMeans(ws.stored, key);
    assert ws.stored[i].proposal == ws.audit[j].payload.proposal;
  }

  /** An event that records a new key's proposal is the new one. */
  lemma SameEvent(k: Kernel, boot: Policy, ws: Workspace, after: Workspace, t: Stored, r: Record, j: nat)
    requires Sound(k, boot, ws) && ByKey(ws.stored, t.proposal.key).None? && r.intent.Some?
    requires |after.audit| == |ws.audit| + 1 && after.audit[..|ws.audit|] == ws.audit
    requires j < |after.audit| && RecordedAs(after.audit[j], t, r)
    ensures j == |ws.audit|
  {
    hide Sound;
    if j < |ws.audit| {
      assert after.audit[j] == ws.audit[j];
      UnrecordedKey(k, boot, ws, t.proposal.key, j);
    }
  }

  lemma PersistedHolds(audit: seq<Event>, j: nat)
    requires j < |audit| && audit[j].payload.persisted
    ensures audit[j] in Persisted(audit)
  {
    FilterMembers(IsPersisted(), audit);
  }

  // ---- what an import makes of records under retained keys ----

  /** How the replay loop takes one record of a retained key. */
  datatype Treatment = Replayed | Conflicting | Anticipated | Forbidden

  /** The record's own transaction with the expected decision replays. Another one conflicts, unless the
      record claims the same content under another decision, which raises, or expects the very
      refusal, which counts as imported. */
  ghost function Treated(k: Kernel, ws: Workspace, t: Stored, r: Record): Treatment
  {
    if Own(k, ws, t, r) then if r.expected == t.decision then Replayed else Forbidden
    else if r.hash == k.proposalHash(t.proposal) && r.proposal == t.proposal && r.expected != t.decision then Forbidden
    else if r.expected == KeyRefusal(r) then Anticipated
    else Conflicting
  }

  /** Content that changed under a retained key, once accepted, conflicts. */
  lemma ChangedContentConflicts(k: Kernel, ws: Workspace, t: Stored, r: Record)
    requires r.intent.Some? && r.hash != k.proposalHash(t.proposal) && r.expected.accepted
    ensures Treated(k, ws, t, r) == Conflicting
  {}

  /** The same content with another decision is forbidden. */
  lemma ChangedDecisionForbidden(k: Kernel, ws: Workspace, t: Stored, r: Record)
    requires r.intent.Some? && r.hash == k.proposalHash(t.proposal) && r.proposal == t.proposal && r.expected != t.decision
    ensures Treated(k, ws, t, r) == Forbidden
  {}

  function ConflictOf(r: Record): Conflict
  {
    Conflict(r.id, IdempotencyConflict)
  }

  /** One round of the replay loop under a retained key. */
  lemma RetainedKeyCounts(k: Kernel, boot: Policy, policies: set<Policy>, ws: Workspace, tally: Tally, i: nat, r: Record, at: Time)
    requires Lawful(k) && Sound(k, boot, ws) && i < |ws.stored| && r.proposal.key == ws.stored[i].proposal.key && r.governing in policies
    ensures ws.active.Some?
    ensures ImportRecord(k, policies, ws, tally, r, at) == match Treated(k, ws, ws.stored[i], r)
      case Replayed => Ok((ws, tally.(replayed := tally.replayed + 1)))
      case Conflicting => Ok((RefusedAttempt(k, ws, r.governing, r, at), tally.(conflicts := tally.conflicts + [ConflictOf(r)])))
      case Anticipated => Ok((RefusedAttempt(k, ws, r.governing, r, at), tally.(imported := tally.imported + 1)))
      case Forbidden => Raised
  {
    hide Sound, Lawful, Own, SubmitIntent, RefusedAttempt;
    SoundKeys(k, boot, ws);
    ByKeyAt(ws.stored, i);
    StoredNeverConflicts(k, boot, ws, i);
    RetainedKeyAnswers(k, boot, ws, i, r.governing, r, at);
  }

  /** One round of the conflict loop for a record that conflicts. */
  lemma RetainedKeyConflicts(k: Kernel, boot: Policy, b: Bundle, expected: seq<Conflict>, ws: Workspace, actual: seq<Conflict>, i: nat, r: Record, at: Time)
    requires Lawful(k) && Sound(k, boot, ws) && i < |ws.stored| && r.proposal.key == ws.stored[i].proposal.key && r.governing in b.policies
    requires Treated(k, ws, ws.stored[i], r) == Conflicting && ExpectedCode(expected, r.id) == Some(IdempotencyConflict)
    ensures ws.active.Some?
    ensures CommitConflict(k, b, expected, ws, actual, r, at) == Ok((RefusedAttempt(k, ws, r.governing, r, at), actual + [ConflictOf(r)]))
  {
    hide Sound, Lawful, Own, SubmitIntent, RefusedAttempt, ExpectedCode;
    RetainedKeyAnswers(k, boot, ws, i, r.governing, r, at);
  }

  /** How the loop counts a record under a new key: the expected answer is imported; another one is a
      conflict when its first reason says that a key or an identity exists, and raises otherwise. */
  lemma NewRecordCounts(k: Kernel, boot: Policy, policies: set<Policy>, ws: Workspace, tally: Tally, r: Record, at: Time)
    requires Lawful(k) && Sound(k, boot, ws) && forall i :: 0 <= i < |ws.stored| ==> ws.stored[i].proposal.key != r.proposal.key
    ensures ws.active.Some?
    ensures
      var d, submitted := FreshDecision(k, ws, r.governing, r.proposal, at), SubmitIntent(k, ws, r.governing, r, at);
      var code := if d.reasons == [] then None else Some(d.reasons[0].code);
      ImportRecord(k, policies, ws, tally, r, at) ==
        if r.governing !in policies || submitted.Raised? then Raised
        else if d == r.expected then Ok((submitted.value.0, tally.(imported := tally.imported + 1)))
        else if !d.accepted && code.Some? && (code == Some(IdempotencyConflict) || code == Some(EntityAlreadyExists))
        then Ok((submitted.value.0, tally.(conflicts := tally.conflicts + [Conflict(r.id, code.value)])))
        else Raised
  {
    hide Sound, Lawful, SubmitIntent, FreshDecision, SubmitLocked, RecordedAs, WithEvent, IdKnown, ByKey;
    NewRecordAnswers(k, boot, ws, r.governing, r, at);
    FreshIsFresh(k, ws, r.governing, r.proposal, at);
    ByKeyMeans(ws.stored, r.proposal.key);
  }

  // ---- refusals leave the log alone ----

  /** The same stored log; only refusals may have been audited since. */
  ghost predicate SameLog(ws: Workspace, later: Workspace)
  {
    && later == ws.(audit := later.audit) && ws.audit <= later.audit
    && forall j :: |ws.audit| <= j < |later.audit| ==> !later.audit[j].payload.persisted
  }

  lemma RefusalKeepsLog(k: Kernel, boot: Policy, ws: Workspace, configured: Policy, r: Record, at: Time)
    requires Sound(k, boot, ws) && ws.active.Some?
    ensures Sound(k, boot, RefusedAttempt(k, ws, configured, r, at)) && SameLog(ws, RefusedAttempt(k, ws, configured, r, at))
  {
    hide Sound, FingerprintOf;
    var e := RefusedAttempt(k, ws, configured, r, at).audit[|ws.audit|];
    assert e == NextEvent(k, ws.audit, e.payload, at);
    UnpersistedKeepsSound(k, boot, ws, e.payload, at);
  }

  lemma SameLogTreats(k: Kernel, ws: Workspace, later: Workspace, t: Stored, r: Record)
    requires SameLog(ws, later)
    ensures Treated(k, later, t, r) == Treated(k, ws, t, r)
  {
    if r.intent.Some? {
      if j :| 0 <= j < |ws.audit| && RecordedAs(ws.audit[j], t, r) {
        assert later.audit[j] == ws.audit[j];
      }
      if j :| 0 <= j < |later.audit| && RecordedAs(later.audit[j], t, r) {
        assert later.audit[j] == ws.audit[j];
      }
    }
  }

  lemma SameLogTransitive(a: Workspace, b: Workspace, c: Workspace)
    requires SameLog(a, b) && SameLog(b, c)
    ensures SameLog(a, c)
  {}

  // ---- whole imports ----

  /** The retained transaction of a record's key. */
  ghost predicate RetainedAs(ws: Workspace, r: Record, t: Stored)
  {
    t in ws.stored && t.proposal.key == r.proposal.key
  }

  ghost predicate TreatedAs(k: Kernel, ws: Workspace, r: Record, treatment: Treatment)
  {
    exists t :: RetainedAs(ws, r, t) && Treated(k, ws, t, r) == treatment
  }

  /** Every record has a retained key, and replays or conflicts. */
  ghost predicate ReplaysOrConflicts(k: Kernel, ws: Workspace, policies: set<Policy>, records: seq<Record>)
  {
    forall i :: 0 <= i < |records| ==>
      records[i].governing in policies && (TreatedAs(k, ws, records[i], Replayed) || TreatedAs(k, ws, records[i], Conflicting))
  }

  /** The records that conflict, in order. */
  ghost function Conflicted(k: Kernel, ws: Workspace, records: seq<Record>): seq<Record>
  {
    if records == [] then []
    else
      var n := |records| - 1;
      Conflicted(k, ws, records[..n]) + (if TreatedAs(k, ws, records[n], Conflicting) then [records[n]] else [])
  }

  function ConflictsOf(rs: seq<Record>): seq<Conflict>
  {
    seq(|rs|, i requires 0 <= i < |rs| => ConflictOf(rs[i]))
  }

  /** One refusal audited for each of these records, in order. */
  function Refusals(k: Kernel, ws: Workspace, rs: seq<Record>, clock: Clock): Workspace
    requires ws.active.Some?
    ensures Refusals(k, ws, rs, clock).active == ws.active
  {
    if rs == [] then ws
    else
      var n := |rs| - 1;
      RefusedAttempt(k, Refusals(k, ws, rs[..n], clock), rs[n].governing, rs[n], clock(rs[n].order))
  }

  lemma {:induction false} RefusalsKeepLog(k: Kernel, boot: Policy, ws: Workspace, rs: seq<Record>, clock: Clock)
    requires Sound(k, boot, ws) && ws.active.Some?
    ensures Sound(k, boot, Refusals(k, ws, rs, clock)) && SameLog(ws, Refusals(k, ws, rs, clock))
    ensures |Refusals(k, ws, rs, clock).audit| == |ws.audit| + |rs|
  {
    hide Sound, SameLog, RefusedAttempt;
    if rs == [] {
      LogIsSame(ws);
    } else {
      var n := |rs| - 1;
      var before := Refusals(k, ws, rs[..n], clock);
      RefusalsKeepLog(k, boot, ws, rs[..n], clock);
      RefusalKeepsLog(k, boot, before, rs[n].governing, rs[n], clock(rs[n].order));
      SameLogTransitive(ws, before, Refusals(k, ws, rs, clock));
      OneMoreEvent(k, before, rs[n].governing, rs[n], clock(rs[n].order));
    }
  }

  lemma LogIsSame(ws: Workspace)
    ensures SameLog(ws, ws)
  {}

  lemma OneMoreEvent(k: Kernel, ws: Workspace, configured: Policy, r: Record, at: Time)
    requires ws.active.Some?
    ensures |RefusedAttempt(k, ws, configured, r, at).audit| == |ws.audit| + 1
  {}

  lemma RetainedOnce(k: Kernel, boot: Policy, ws: Workspace, r: Record, t: Stored) returns (i: nat)
    requires Sound(k, boot, ws) && RetainedAs(ws, r, t)
    ensures i < |ws.stored| && ws.stored[i] == t
    ensures forall u :: RetainedAs(ws, r, u) ==> u == t
  {
    hide Chained, AllGoverned, StoredOf, AcceptedOf, PoliciesAfter, ActiveAfter, Persisted;
    i :| 0 <= i < |ws.stored| && ws.stored[i] == t;
    forall u | RetainedAs(ws, r, u)
      ensures u == t
    {
      var j :| 0 <= j < |ws.stored| && ws.stored[j] == u;
    }
  }

  function TallyOf(records: nat, conflicts: seq<Conflict>): Tally
    requires |conflicts| <= records
  {
    Tally(0, records - |conflicts|, conflicts)
  }

  lemma {:induction false} ConflictedFewer(k: Kernel, ws: Workspace, records: seq<Record>)
    ensures |Conflicted(k, ws, records)| <= |records|
  {
    if records != [] {
      ConflictedFewer(k, ws, records[..|records| - 1]);
    }
  }

  lemma ConflictsSnoc(rs: seq<Record>, r: Record)
    ensures ConflictsOf(rs + [r]) == ConflictsOf(rs) + [ConflictOf(r)]
  {}

  lemma RefusalsSnoc(k: Kernel, ws: Workspace, rs: seq<Record>, r: Record, clock: Clock)
    requires ws.active.Some?
    ensures Refusals(k, ws, rs + [r], clock) == RefusedAttempt(k, Refusals(k, ws, rs, clock), r.governing, r, clock(r.order))
  {
    assert (rs + [r])[..|rs|] == rs;
  }

  /** Replaying records of retained keys audits one refusal for each that conflicts, and nothing else. */
  lemma {:induction false} RetainedImport(k: Kernel, boot: Policy, policies: set<Policy>, ws: Workspace, records: seq<Record>, clock: Clock)
    requires Lawful(k) && Sound(k, boot, ws) && ReplaysOrConflicts(k, ws, policies, records)
    ensures ws.active.Some? && |Conflicted(k, ws, records)| <= |records|
    ensures ImportAll(k, policies, ws, records, clock)
         == Ok((Refusals(k, ws, Conflicted(k, ws, records), clock), TallyOf(|records|, ConflictsOf(Conflicted(k, ws, records)))))
  {
    hide Sound, Lawful, ImportRecord, Treated, RefusedAttempt, SameLog;
    ActiveIsRegistered(k, boot, ws);
    ConflictedFewer(k, ws, records);
    if records != [] {
      var n := |records| - 1;
      var front, r := records[..n], records[n];
      ConflictedFewer(k, ws, front);
      RetainedImport(k, boot, policies, ws, front, clock);
      var rs := Conflicted(k, ws, front);
      var now := Refusals(k, ws, rs, clock);
      ImportLast(k, policies, ws, records, clock, now, TallyOf(n, ConflictsOf(rs)));
      assert r.governing in policies && (TreatedAs(k, ws, r, Replayed) || TreatedAs(k, ws, r, Conflicting));
      RetainedStep(k, boot, policies, ws, rs, n, r, clock);
    }
  }

  lemma RetainedStep(k: Kernel, boot: Policy, policies: set<Policy>, ws: Workspace, rs: seq<Record>, n: nat, r: Record, clock: Clock)
    requires Lawful(k) && Sound(k, boot, ws) && ws.active.Some? && |rs| <= n && r.governing in policies
    requires TreatedAs(k, ws, r, Replayed) || TreatedAs(k, ws, r, Conflicting)
    ensures
      var conflicts := TreatedAs(k, ws, r, Conflicting);
      var next := rs + (if conflicts then [r] else []);
      ImportRecord(k, policies, Refusals(k, ws, rs, clock), TallyOf(n, ConflictsOf(rs)), r, clock(r.order))
      == Ok((Refusals(k, ws, next, clock), TallyOf(n + 1, ConflictsOf(next))))
  {
    hide Sound, Lawful, ImportRecord, Treated, RefusedAttempt, SameLog, Refusals;
    var now := Refusals(k, ws, rs, clock);
    var t :| RetainedAs(ws, r, t) && (Treated(k, ws, t, r) == Replayed || Treated(k, ws, t, r) == Conflicting);
    var i := RetainedOnce(k, boot, ws, r, t);
    RefusalsKeepLog(k, boot, ws, rs, clock);
    SameLogTreats(k, ws, now, t, r);
    SameStored(ws, now);
    RetainedKeyCounts(k, boot, policies, now, TallyOf(n, ConflictsOf(rs)), i, r, clock(r.order));
    if Treated(k, ws, t, r) == Conflicting {
      ConflictsSnoc(rs, r);
      RefusalsSnoc(k, ws, rs, r, clock);
    } else {
      assert rs + [] == rs;
    }
  }

  lemma SameStored(ws: Workspace, later: Workspace)
    requires SameLog(ws, later)
    ensures later.stored == ws.stored
  {}

  // ---- the conflicts alone are committed ----

  ghost predicate DistinctIds(records: seq<Record>)
  {
    forall i, j :: 0 <= i < j < |records| ==> records[i].id != records[j].id
  }

  lemma {:induction false} ConflictedMembers(k: Kernel, ws: Workspace, records: seq<Record>)
    ensures forall r :: r in Conflicted(k, ws, records) <==> r in records && TreatedAs(k, ws, r, Conflicting)
  {
    hide TreatedAs;
    if records != [] {
      var n := |records| - 1;
      ConflictedMembers(k, ws, records[..n]);
      assert records == records[..n] + [records[n]];
    }
  }

  lemma {:induction false} ExpectedExactly(rs: seq<Record>, id: Id)
    ensures ExpectedCode(ConflictsOf(rs), id) == if exists i :: 0 <= i < |rs| && rs[i].id == id then Some(IdempotencyConflict) else None
  {
    if rs != [] {
      ExpectedExactly(rs[1..], id);
      assert ConflictsOf(rs)[1..] == ConflictsOf(rs[1..]);
      assert forall i :: 0 < i < |rs| ==> rs[i] == rs[1..][i - 1];
      assert forall i :: 0 <= i < |rs| - 1 ==> rs[1..][i] == rs[i + 1];
    }
  }

  lemma SameIdSameRecord(records: seq<Record>, r: Record, i: nat)
    requires DistinctIds(records) && i < |records| && r in records && r.id == records[i].id
    ensures r == records[i]
  {
    var m :| 0 <= m < |records| && records[m] == r;
  }

  /** A record's conflict is expected exactly when it conflicts. */
  lemma ExpectedOf(k: Kernel, ws: Workspace, records: seq<Record>, i: nat)
    requires DistinctIds(records) && i < |records|
    ensures ExpectedCode(ConflictsOf(Conflicted(k, ws, records)), records[i].id)
         == if TreatedAs(k, ws, records[i], Conflicting) then Some(IdempotencyConflict) else None
  {
    hide TreatedAs, ExpectedCode, ConflictsOf, Conflicted;
    var rs := Conflicted(k, ws, records);
    ExpectedExactly(rs, records[i].id);
    ConflictedMembers(k, ws, records);
    forall r | r in rs && r.id == records[i].id
      ensures r == records[i]
    {
      SameIdSameRecord(records, r, i);
    }
    if TreatedAs(k, ws, records[i], Conflicting) {
      assert records[i] in rs;
      var j :| 0 <= j < |rs| && rs[j] == records[i];
    }
  }

  lemma {:induction false} RetainedConflicts(k: Kernel, boot: Policy, b: Bundle, ws: Workspace, records: seq<Record>, n: nat, clock: Clock)
    requires Lawful(k) && Sound(k, boot, ws) && ws.active.Some? && DistinctIds(records) && n <= |records|
    requires ReplaysOrConflicts(k, ws, b.policies, records)
    ensures
      var expected, rs := ConflictsOf(Conflicted(k, ws, records)), Conflicted(k, ws, records[..n]);
      Fold(ConflictStep(k, b, expected, clock), (ws, []), records[..n]) == Ok((Refusals(k, ws, rs, clock), ConflictsOf(rs)))
  {
    hide Sound, Lawful, CommitConflict, Treated, RefusedAttempt, SameLog, ExpectedCode;
    var expected := ConflictsOf(Conflicted(k, ws, records));
    if n > 0 {
      var r, rs := records[n - 1], Conflicted(k, ws, records[..n - 1]);
      RetainedConflicts(k, boot, b, ws, records, n - 1, clock);
      assert records[..n] == records[..n - 1] + [r] && records[..n][..n - 1] == records[..n - 1];
      FoldSnoc(ConflictStep(k, b, expected, clock), (ws, []), records[..n - 1], r);
      ExpectedOf(k, ws, records, n - 1);
      assert r.governing in b.policies && (TreatedAs(k, ws, r, Replayed) || TreatedAs(k, ws, r, Conflicting));
      ConflictStepIs(k, boot, b, expected, ws, rs, r, clock);
    } else {
      NothingConflicts(k, ws, records[..0], ConflictStep(k, b, expected, clock), clock);
    }
  }

  lemma NothingConflicts(k: Kernel, ws: Workspace, records: seq<Record>, step: ((Workspace, seq<Conflict>), Record) -> Result<(Workspace, seq<Conflict>)>, clock: Clock)
    requires ws.active.Some? && records == []
    ensures Fold(step, (ws, []), records) == Ok((Refusals(k, ws, Conflicted(k, ws, records), clock), ConflictsOf(Conflicted(k, ws, records))))
  {
    assert Conflicted(k, ws, records) == [] && ConflictsOf([]) == [];
  }

  lemma ConflictStepIs(k: Kernel, boot: Policy, b: Bundle, expected: seq<Conflict>, ws: Workspace, rs: seq<Record>, r: Record, clock: Clock)
    requires Lawful(k) && Sound(k, boot, ws) && ws.active.Some? && r.governing in b.policies
    requires ExpectedCode(expected, r.id) == if TreatedAs(k, ws, r, Conflicting) then Some(IdempotencyConflict) else None
    ensures
      var next := rs + (if TreatedAs(k, ws, r, Conflicting) then [r] else []);
      CommitConflict(k, b, expected, Refusals(k, ws, rs, clock), ConflictsOf(rs), r, clock(r.order)) == Ok((Refusals(k, ws, next, clock), ConflictsOf(next)))
  {
    hide Sound, Lawful, Treated, RefusedAttempt, SameLog, Refusals, ExpectedCode, SubmitIntent;
    if TreatedAs(k, ws, r, Conflicting) {
      hide CommitConflict;
      var now := Refusals(k, ws, rs, clock);
      var t :| RetainedAs(ws, r, t) && Treated(k, ws, t, r) == Conflicting;
      var i := RetainedOnce(k, boot, ws, r, t);
      RefusalsKeepLog(k, boot, ws, rs, clock);
      SameLogTreats(k, ws, now, t, r);
      SameStored(ws, now);
      RetainedKeyConflicts(k, boot, b, expected, now, ConflictsOf(rs), i, r, clock(r.order));
      ConflictsSnoc(rs, r);
      RefusalsSnoc(k, ws, rs, r, clock);
    } else {
      assert rs + [] == rs;
    }
  }

  /** The preflight clone holds the target's log. */
  lemma CloneHasSameLog(k: Kernel, boot: Policy, target: Workspace)
    requires Sound(k, boot, target) && Leads(target)
    ensures |target.stored| <= |target.audit| && SameLog(Of(boot, target.audit[..|target.stored|]), target)
    ensures Sound(k, boot, Of(boot, target.audit[..|target.stored|]))
  {
    hide Sound, Persisted, AcceptedOf, PoliciesAfter, ActiveAfter, StoredOf;
    CloneIsBare(k, boot, target);
    SoundIsOf(k, boot, target);
    SoundLists(k, boot, target);
    StoredLength(target);
    PersistedStart(target.audit, |target.stored|);
    var n := |target.stored|;
    forall j | n <= j < |target.audit|
      ensures !target.audit[j].payload.persisted
    {
      NothingPersistedLater(target.audit, n, j);
    }
  }

  lemma StoredLength(ws: Workspace)
    requires ws.stored == StoredOf(Persisted(ws.audit))
    ensures |ws.stored| == |Persisted(ws.audit)|
  {}

  lemma NothingPersistedLater(audit: seq<Event>, n: nat, j: nat)
    requires n == |Persisted(audit)| && n <= j < |audit| && Persisted(audit[..n]) == audit[..n]
    ensures !audit[j].payload.persisted
  {
    if audit[j].payload.persisted {
      PersistedPrefix(audit[..j], n);
      assert audit[..j][..n] == audit[..n];
      PersistedSnoc(audit[..j], audit[j]);
      assert audit[..j + 1] == audit[..j] + [audit[j]];
      PersistedPrefix(audit, j + 1);
    }
  }

  lemma {:induction false} SameLogConflicted(k: Kernel, ws: Workspace, later: Workspace, records: seq<Record>)
    requires SameLog(ws, later)
    ensures Conflicted(k, later, records) == Conflicted(k, ws, records)
  {
    hide SameLog, Treated;
    SameStored(ws, later);
    if records != [] {
      SameLogConflicted(k, ws, later, records[..|records| - 1]);
      SameLogTreatsAs(k, ws, later, records[|records| - 1], Conflicting);
    }
  }

  lemma SameLogTreatsAs(k: Kernel, ws: Workspace, later: Workspace, r: Record, treatment: Treatment)
    requires SameLog(ws, later)
    ensures TreatedAs(k, later, r, treatment) <==> TreatedAs(k, ws, r, treatment)
  {
    hide SameLog, Treated;
    SameStored(ws, later);
    forall t ensures Treated(k, later, t, r) == Treated(k, ws, t, r)
    {
      SameLogTreats(k, ws, later, t, r);
    }
  }

  lemma OrderedMembers(b: Bundle)
    ensures forall r :: r in InOrder(b) <==> r in b.records
  {
    hide Sort;
    OrderIsOrdered();
    SortAscends(OrderLeq, b.records);
    forall r ensures r in InOrder(b) <==> r in b.records
    {
      assert r in multiset(InOrder(b)) <==> r in multiset(b.records);
    }
  }

  lemma BundleIds(k: Kernel, b: Bundle)
    requires Canonical(k, b)
    ensures forall x, y :: x in b.records && y in b.records && x != y ==> x.id != y.id
  {
    hide RecordCanonical, Ascends;
  }

  lemma OrderedRecords(k: Kernel, b: Bundle)
    requires Canonical(k, b)
    ensures DistinctIds(InOrder(b)) && forall r :: r in InOrder(b) <==> r in b.records
  {
    hide Canonical, InOrder;
    InOrderAt(k, b);
    OrderedMembers(b);
    BundleIds(k, b);
    var ordered := InOrder(b);
    forall i, j | 0 <= i < j < |ordered|
      ensures ordered[i].id != ordered[j].id
    {
      assert ordered[i].order == i && ordered[j].order == j;
      assert ordered[i] in ordered && ordered[j] in ordered;
    }
  }

  /** A whole import of records under retained keys, some of which conflict: it reports exactly those
      conflicts, in replay order, audits one refusal for each, and changes nothing else. */
  lemma RetainedKeysImport(k: Kernel, boot: Policy, b: Bundle, target: Workspace, clocks: Clocks)
    requires Lawful(k) && CollisionFree(k) && Canonical(k, b) && Sound(k, boot, target)
    requires Clean(target, clocks.clone) && b.bootstrap in target.policies
    requires ReplaysOrConflicts(k, target, b.policies, b.records) && exists r :: r in b.records && TreatedAs(k, target, r, Conflicting)
    ensures target.active.Some? && Conflicted(k, target, InOrder(b)) != []
    ensures
      var rs := Conflicted(k, target, InOrder(b));
      && ImportWorkspace(k, b, target, clocks) == Ok((Refusals(k, target, rs, clocks.commit), Import(Tally(0, 0, ConflictsOf(rs)), false)))
      && SameLog(target, Refusals(k, target, rs, clocks.commit)) && |Refusals(k, target, rs, clocks.commit).audit| == |target.audit| + |rs|
  {
    hide Lawful, CollisionFree, Canonical, Sound, Clean, Commit, StagedClone, ConflictsOnly, SameLog, TreatedAs, Refusals, ConflictsOf, Of;
    ActiveIsRegistered(k, boot, target);
    OrderedRecords(k, b);
    var ordered := InOrder(b);
    var rs := Conflicted(k, target, ordered);
    ConflictedMembers(k, target, ordered);
    StagedExactly(k, b, boot, target, clocks.clone);
    CleanIsFromStart(target, clocks.clone);
    CloneHasSameLog(k, boot, target);
    var clone := Of(boot, target.audit[..|target.stored|]);
    OrderedTreats(k, target, b.policies, b.records, ordered);
    PreflightReports(k, boot, b, target, clone, clocks.preflight);
    CommitReports(k, boot, b, target, clocks.commit);
    RefusalsKeepLog(k, boot, target, rs, clocks.commit);
    SomeConflicts(rs);
    ImportReports(k, b, target, clocks, clone, ConflictsOf(rs));
  }

  lemma SomeConflicts(rs: seq<Record>)
    ensures |ConflictsOf(rs)| == |rs|
  {}

  lemma OrderedTreats(k: Kernel, ws: Workspace, policies: set<Policy>, records: seq<Record>, ordered: seq<Record>)
    requires ReplaysOrConflicts(k, ws, policies, records) && forall r :: r in ordered <==> r in records
    ensures ReplaysOrConflicts(k, ws, policies, ordered)
  {
    hide TreatedAs;
    forall i | 0 <= i < |ordered|
      ensures ordered[i].governing in policies && (TreatedAs(k, ws, ordered[i], Replayed) || TreatedAs(k, ws, ordered[i], Conflicting))
    {
      assert ordered[i] in records;
    }
  }

  lemma PreflightReports(k: Kernel, boot: Policy, b: Bundle, target: Workspace, clone: Workspace, clock: Clock)
    requires Lawful(k) && Canonical(k, b) && Sound(k, boot, clone) && SameLog(clone, target) && b.bootstrap in target.policies
    requires ReplaysOrConflicts(k, target, b.policies, InOrder(b)) && Conflicted(k, target, InOrder(b)) != []
    ensures Commit(k, b, clone, clock).Ok?
    ensures Commit(k, b, clone, clock).value.1.tally.conflicts == ConflictsOf(Conflicted(k, target, InOrder(b)))
  {
    hide Lawful, Sound, TreatedAs, SameLog, Refusals, ImportAll, Export, Treated;
    SameLogConflicted(k, clone, target, InOrder(b));
    forall i | 0 <= i < |InOrder(b)|
      ensures InOrder(b)[i].governing in b.policies && (TreatedAs(k, clone, InOrder(b)[i], Replayed) || TreatedAs(k, clone, InOrder(b)[i], Conflicting))
    {
      SameLogTreatsAs(k, clone, target, InOrder(b)[i], Replayed);
      SameLogTreatsAs(k, clone, target, InOrder(b)[i], Conflicting);
    }
    RetainedImport(k, boot, b.policies, clone, InOrder(b), clock);
    SamePolicies(clone, target);
    SomeConflicts(Conflicted(k, target, InOrder(b)));
  }

  lemma SamePolicies(ws: Workspace, later: Workspace)
    requires SameLog(ws, later)
    ensures later.policies == ws.policies && later.active == ws.active
  {}

  lemma CommitReports(k: Kernel, boot: Policy, b: Bundle, target: Workspace, clock: Clock)
    requires Lawful(k) && Sound(k, boot, target) && target.active.Some? && DistinctIds(InOrder(b))
    requires ReplaysOrConflicts(k, target, b.policies, InOrder(b))
    ensures
      var rs := Conflicted(k, target, InOrder(b));
      ConflictsOnly(k, b, ConflictsOf(rs), target, clock) == Ok((Refusals(k, target, rs, clock), Import(Tally(0, 0, ConflictsOf(rs)), false)))
  {
    hide Lawful, Sound, TreatedAs, Refusals, ConflictStep, Fold;
    RetainedConflicts(k, boot, b, target, InOrder(b), |InOrder(b)|, clock);
    assert InOrder(b)[..|InOrder(b)|] == InOrder(b);
  }

  lemma ImportReports(k: Kernel, b: Bundle, target: Workspace, clocks: Clocks, clone: Workspace, conflicts: seq<Conflict>)
    requires StagedClone(k, b, target, clocks.clone) == Ok(clone) && Commit(k, b, clone, clocks.preflight).Ok?
    requires Commit(k, b, clone, clocks.preflight).value.1.tally.conflicts == conflicts && conflicts != []
    ensures ImportWorkspace(k, b, target, clocks) == ConflictsOnly(k, b, conflicts, target, clocks.commit)
  {
    hide StagedClone, Commit, ConflictsOnly;
  }

  /** A record that claims the content of a retained transaction under another decision makes the whole
      import raise, whatever came before it. */
  lemma ForbiddenRaises(k: Kernel, boot: Policy, b: Bundle, target: Workspace, clocks: Clocks, i: nat)
    requires Lawful(k) && CollisionFree(k) && Sound(k, boot, target) && Clean(target, clocks.clone) && i < |InOrder(b)|
    requires ReplaysOrConflicts(k, target, b.policies, InOrder(b)[..i]) && TreatedAs(k, target, InOrder(b)[i], Forbidden)
    ensures ImportWorkspace(k, b, target, clocks).Raised?
  {
    hide Lawful, CollisionFree, Sound, Clean, Commit, StagedClone, ConflictsOnly, SameLog, TreatedAs, Of, InOrder;
    StagedExactly(k, b, boot, target, clocks.clone);
    if StagedClone(k, b, target, clocks.clone).Ok? {
      CleanIsFromStart(target, clocks.clone);
      CloneHasSameLog(k, boot, target);
      ForbiddenStops(k, boot, b, target, Of(boot, target.audit[..|target.stored|]), clocks.preflight, i);
    }
  }

  lemma ForbiddenStops(k: Kernel, boot: Policy, b: Bundle, target: Workspace, clone: Workspace, clock: Clock, i: nat)
    requires Lawful(k) && Sound(k, boot, clone) && SameLog(clone, target) && i < |InOrder(b)|
    requires ReplaysOrConflicts(k, target, b.policies, InOrder(b)[..i]) && TreatedAs(k, target, InOrder(b)[i], Forbidden)
    ensures Commit(k, b, clone, clock).Raised?
  {
    hide Lawful, Sound, SameLog, TreatedAs, InOrder, Export, ImportRecord, Treated, Refusals;
    ActiveIsRegistered(k, boot, clone);
    var records := InOrder(b);
    var front, r := records[..i], records[i];
    forall j | 0 <= j < i
      ensures front[j].governing in b.policies && (TreatedAs(k, clone, front[j], Replayed) || TreatedAs(k, clone, front[j], Conflicting))
    {
      SameLogTreatsAs(k, clone, target, front[j], Replayed);
      SameLogTreatsAs(k, clone, target, front[j], Conflicting);
    }
    SameLogTreatsAs(k, clone, target, r, Forbidden);
    RetainedImport(k, boot, b.policies, clone, front, clock);
    ForbiddenStep(k, boot, b.policies, clone, Conflicted(k, clone, front), TallyOf(i, ConflictsOf(Conflicted(k, clone, front))), r, clock);
    assert records[..i + 1] == front + [r];
    FoldSnoc(ImportStep(k, b.policies, clock), (clone, WorkspaceExchange.ZERO), front, r);
    if ImportAll(k, b.policies, clone, records, clock).Ok? {
      FoldPrefix(ImportStep(k, b.policies, clock), (clone, WorkspaceExchange.ZERO), records, i + 1);
    }
    PreparedIsSame(b, clone);
  }

  lemma PreparedIsSame(b: Bundle, ws: Workspace)
    requires ws.active.Some?
    ensures Prepare(b, ws).Ok? ==> Prepare(b, ws).value == ws
  {}

  lemma ForbiddenStep(k: Kernel, boot: Policy, policies: set<Policy>, ws: Workspace, rs: seq<Record>, tally: Tally, r: Record, clock: Clock)
    requires Lawful(k) && Sound(k, boot, ws) && ws.active.Some? && TreatedAs(k, ws, r, Forbidden)
    ensures ImportRecord(k, policies, Refusals(k, ws, rs, clock), tally, r, clock(r.order)).Raised?
  {
    hide Sound, Lawful, Treated, RefusedAttempt, SameLog, Refusals, SubmitIntent;
    if r.governing in policies {
      hide ImportRecord;
      var now := Refusals(k, ws, rs, clock);
      var t :| RetainedAs(ws, r, t) && Treated(k, ws, t, r) == Forbidden;
      var i := RetainedOnce(k, boot, ws, r, t);
      RefusalsKeepLog(k, boot, ws, rs, clock);
      SameLogTreats(k, ws, now, t, r);
      SameStored(ws, now);
      RetainedKeyCounts(k, boot, policies, now, tally, i, r, clock(r.order));
    }
  }

  // ---- what an export says, and what a verified commit compares ----

  /** The record of one persisted event, spelled out. */
  function RecordOf(k: Kernel, e: Event, order: nat): Record
  {
    var p := e.payload;
    Record(p.proposal.id, order, p.policyHash, k.proposalHash(p.proposal), p.proposal, p.decision, Some(Intent(p.fingerprint, e.sequence, e.hash)))
  }

  /** An export of any workspace that coordinators built names the first and the active policy, all
      policies, the listings of its tables, and by id one record for each persisted event. */
  lemma ExportSays(k: Kernel, boot: Policy, ws: Workspace)
    requires Lawful(k) && Sound(k, boot, ws)
    ensures Export(k, ws).Ok?
    ensures
      var b, persisted := Export(k, ws).value, Persisted(ws.audit);
      && b.bootstrap == boot && b.active == ActiveAfter(boot, AcceptedOf(persisted)) && b.policies == PoliciesAfter(boot, AcceptedOf(persisted))
      && b.projections == k.projections(AcceptedOf(persisted)) && b.artifacts == k.artifacts(StoredOf(persisted))
      && |b.records| == |persisted| && Ascends(RecordLeq, b.records)
      && multiset(b.records) == multiset(seq(|persisted|, i requires 0 <= i < |persisted| => RecordOf(k, persisted[i], i)))
  {
    hide Governed, AllGoverned, DistinctKeys, Chained, Sort, Persisted, AcceptedOf, PoliciesAfter, ActiveAfter, Lawful;
    ExportKeepsAuditOrder(k, boot, ws);
    RecordsAreOrdered();
    var persisted := Persisted(ws.audit);
    var records := seq(|persisted|, i requires 0 <= i < |persisted| => RecordOf(k, persisted[i], i));
    forall i | 0 <= i < |persisted|
      ensures Log(k, ws)[i] == records[i]
    {
      StoredNeverConflicts(k, boot, ws, i);
      assert ws.stored[i] == Stored(persisted[i].payload.proposal, persisted[i].payload.decision, persisted[i].payload.fingerprint);
    }
    assert Log(k, ws) == records;
    SortAscends(RecordLeq, records);
    assert |multiset(Sort(RecordLeq, records))| == |multiset(records)|;
  }

  /** The rebuilt bundle is the imported one, except that legacy records have gained intents. */
  ghost predicate SameButIntents(b: Bundle, rebuilt: Bundle)
  {
    && rebuilt.(records := b.records) == b && |rebuilt.records| == |b.records|
    && forall i :: 0 <= i < |b.records| ==>
         rebuilt.records[i].(intent := b.records[i].intent) == b.records[i]
         && (b.records[i].intent.Some? ==> rebuilt.records[i].intent == b.records[i].intent)
  }

  /** A replay without conflicts is committed exactly when the result exports the bundle again. */
  lemma CommitVerifiesExactly(k: Kernel, b: Bundle, ws: Workspace, start: Workspace, after: Workspace, tally: Tally, clock: Clock)
    requires Prepare(b, ws) == Ok(start) && ImportAll(k, b.policies, start, InOrder(b), clock) == Ok((after, tally))
    requires tally.conflicts == []
    ensures Commit(k, b, ws, clock) == if Export(k, after).Ok? && SameButIntents(b, Export(k, after).value)
      then Ok((after, Import(tally, true))) else Raised
  {
    hide ImportAll, Export, Prepare, SameButIntents, BundleMatches;
    CommitIs(k, b, ws, start, after, tally, clock);
    if Export(k, after).Ok? {
      MatchesExactly(b, Export(k, after).value);
    }
  }

  lemma MatchesExactly(b: Bundle, rebuilt: Bundle)
    ensures BundleMatches(b, rebuilt) <==> SameButIntents(b, rebuilt)
  {
    if SameButIntents(b, rebuilt) && !exists i :: 0 <= i < |b.records| && b.records[i].intent.None? {
      assert rebuilt.records == b.records;
    }
    if BundleMatches(b, rebuilt) && b != rebuilt {
      forall i | 0 <= i < |b.records|
        ensures rebuilt.records[i].(intent := b.records[i].intent) == b.records[i]
      {
        assert RecordMatches(b.records[i], rebuilt.records[i]);
      }
    }
  }

  /** Where a commit starts: an empty workspace takes over the bundle's first policy, any other must know
      it; one with rows but no active policy is refused. */
  lemma PreparesExactly(b: Bundle, ws: Workspace)
    ensures Prepare(b, ws) ==
      if b.bootstrap in b.policies && ws.active.Some? && b.bootstrap in ws.policies then Ok(ws)
      else if b.bootstrap in b.policies && ws.active.None? && ws.stored == [] && ws.audit == [] && ws.policies == {}
      then Ok(Workspace({b.bootstrap}, Some(b.bootstrap), [], [], ws.accepted))
      else Raised
  {}
}
