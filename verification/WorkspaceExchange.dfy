/** Exporting a workspace's decision log as a bundle and importing it by replay through the
    transaction coordinator. */
module WorkspaceExchange {
  import opened Common
  import opened Ordering

  type Id = string
  type Digest = string
  type Time = int

  /** The reading that serves a record, by its place in replay order. */
  type Clock = nat -> Time

  /** The readings of the three replays of a whole import. */
  datatype Clocks = Clocks(clone: Clock, preflight: Clock, commit: Clock)

  const GENESIS: Digest := ""

  // ---- what is stored ----

  datatype Code = IdempotencyConflict | EntityAlreadyExists | PolicyHashMismatch | OtherCode(name: string)

  datatype Reason = Reason(code: Code, message: string)

  datatype Decision = Decision(proposalId: Id, accepted: bool, replayed: bool, reasons: seq<Reason>)

  /** A policy snapshot is identified with the hash of its content. */
  type Policy = Digest

  /** `Invalid` is what the coordinator audits when an attempt conflicts with its key. A policy
      transition carries the candidate it activates. */
  datatype Proposal =
    | Authored(id: Id, key: Id, body: string, candidate: Option<Policy>)
    | Invalid(id: Id, key: Id, body: string)

  datatype Stored = Stored(proposal: Proposal, decision: Decision, fingerprint: Option<Digest>)

  datatype Payload = Payload(
    proposal: Proposal, decision: Decision, policyHash: Digest, configured: Option<Digest>,
    persisted: bool, fingerprint: Option<Digest>)

  /** The event id is a function of the sequence, so the sequence stands for it. */
  datatype Event = Event(sequence: nat, occurredAt: Time, payload: Payload, previousHash: Digest, hash: Digest)

  datatype Envelope = Envelope(sequence: nat, occurredAt: Time, payload: Payload, previousHash: Digest)

  datatype Accepted = Accepted(proposal: Proposal, at: Time)

  /** The stored tables. Projections are functions of the accepted decisions, so the accepted
      history stands for them. */
  datatype Workspace = Workspace(
    policies: set<Policy>, active: Option<Digest>, stored: seq<Stored>, audit: seq<Event>, accepted: seq<Accepted>)

  const EMPTY := Workspace({}, None, [], [], [])

  /** The deterministic parts the coordinator is built from, uninterpreted: the admission
      decision, the hashes, and the projection and artifact listings of an export. */
  datatype Kernel = Kernel(
    decide: (seq<Accepted>, Policy, Time, Proposal) -> Decision,
    proposalHash: Proposal -> Digest,
    attemptFingerprint: Proposal -> Digest,
    eventHash: Envelope -> Digest,
    projections: seq<Accepted> -> string,
    artifacts: seq<Stored> -> string)

  const REUSED_CONTENT := "idempotency key was reused with different proposal content"
  const REUSED_ATTEMPT := "idempotency key was reused with a different trusted attempt envelope"

  /** The coordinator's own refusals of a reused key. Handlers use the same code, for conflicting
      content under a stable identity, but with messages of their own. */
  predicate OwnMessage(message: string)
  {
    message == REUSED_CONTENT || message == REUSED_ATTEMPT
  }

  /** Handler decisions name their proposal, are fresh, and are never the coordinator's own refusal
      of a reused key. */
  ghost predicate Lawful(k: Kernel)
  {
    forall history, policy, at, p ::
      var d := k.decide(history, policy, at, p);
      && d.proposalId == p.id && !d.replayed
      && (d.accepted <==> d.reasons == [])
      && (forall message :: OwnMessage(message) ==> d != Rejection(p.id, IdempotencyConflict, message))
  }

  ghost predicate CollisionFree(k: Kernel)
  {
    forall a, b :: k.eventHash(a) == k.eventHash(b) ==> a == b
  }

  function Rejection(id: Id, code: Code, message: string): Decision
  {
    Decision(id, false, false, [Reason(code, message)])
  }

  // ---- the coordinator ----

  function ByKey(stored: seq<Stored>, key: Id): Option<Stored>
  {
    if stored == [] then None
    else if stored[0].proposal.key == key then Some(stored[0])
    else ByKey(stored[1..], key)
  }

  function ById(stored: seq<Stored>, id: Id): Option<Stored>
  {
    if stored == [] then None
    else if stored[0].proposal.id == id then Some(stored[0])
    else ById(stored[1..], id)
  }

  function NextEvent(k: Kernel, audit: seq<Event>, payload: Payload, at: Time): Event
  {
    var sequence := |audit| + 1;
    var previousHash := if audit == [] then GENESIS else audit[|audit| - 1].hash;
    Event(sequence, at, payload, previousHash, k.eventHash(Envelope(sequence, at, payload, previousHash)))
  }

  function Audited(k: Kernel, ws: Workspace, configured: Policy, p: Proposal, d: Decision, fingerprint: Option<Digest>, at: Time): Workspace
    requires ws.active.Some?
  {
    var kept := ByKey(ws.stored, p.key);
    var persisted := kept == Some(Stored(p, d, fingerprint));
    var registered := if configured in ws.policies then Some(configured) else None;
    var payload := Payload(p, d, ws.active.value, registered, persisted, fingerprint);
    ws.(audit := ws.audit + [NextEvent(k, ws.audit, payload, at)])
  }

  function Projected(ws: Workspace, p: Proposal, d: Decision, at: Time): Workspace
  {
    if !d.accepted then ws
    else
      var next := ws.(accepted := ws.accepted + [Accepted(p, at)]);
      if p.Authored? && p.candidate.Some?
      then next.(policies := ws.policies + {p.candidate.value}, active := p.candidate)
      else next
  }

  /** The audit event of a stored decision names the policy that was active before it. */
  function Recorded(k: Kernel, ws: Workspace, configured: Policy, p: Proposal, d: Decision, fingerprint: Option<Digest>, at: Time): Workspace
    requires ws.active.Some?
  {
    var after := Projected(ws, p, d, at);
    var audited := Audited(k, ws.(stored := ws.stored + [Stored(p, d, fingerprint)]), configured, p, d, fingerprint, at);
    after.(stored := audited.stored, audit := audited.audit)
  }

  function SubmitLocked(k: Kernel, ws: Workspace, configured: Policy, p: Proposal, fingerprint: Option<Digest>, at: Time): (Workspace, Decision)
  {
    var prior := ByKey(ws.stored, p.key);
    if prior.Some? then
      if k.proposalHash(prior.value.proposal) != k.proposalHash(p) || prior.value.fingerprint != fingerprint then
        var d := Rejection(p.id, IdempotencyConflict, REUSED_CONTENT);
        (if ws.active.Some? then Audited(k, ws, configured, p, d, fingerprint, at) else ws, d)
      else (ws, prior.value.decision.(replayed := true))
    else if ws.active != Some(configured) || configured !in ws.policies then
      var d := Rejection(p.id, PolicyHashMismatch, "stored active policy does not match the configured policy snapshot");
      if ws.active.None? then (ws, d)
      else if ById(ws.stored, p.id).None? then (Recorded(k, ws, configured, p, d, fingerprint, at), d)
      else (Audited(k, ws, configured, p, d, fingerprint, at), d)
    else if ById(ws.stored, p.id).Some? then
      var d := Rejection(p.id, EntityAlreadyExists, "proposal id already exists");
      (Audited(k, ws, configured, p, d, fingerprint, at), d)
    else
      var d := k.decide(ws.accepted, configured, at, p);
      (Recorded(k, ws, configured, p, d, fingerprint, at), d)
  }

  // ---- bundles ----

  datatype Intent = Intent(fingerprint: Option<Digest>, eventSequence: nat, eventHash: Digest)

  datatype Record = Record(
    id: Id, order: nat, governing: Digest, hash: Digest, proposal: Proposal, expected: Decision, intent: Option<Intent>)

  datatype Bundle = Bundle(
    bootstrap: Digest, active: Digest, policies: set<Policy>, records: seq<Record>, projections: string, artifacts: string)

  predicate RecordLeq(a: Record, b: Record)
  {
    StringLeq(a.id, b.id)
  }

  predicate OrderLeq(a: Record, b: Record)
  {
    a.order <= b.order
  }

  /** What the bundle validators check of the log. */
  ghost predicate Canonical(k: Kernel, b: Bundle)
  {
    && b.bootstrap in b.policies && b.active in b.policies
    && Ascends(RecordLeq, b.records)
    && (forall i, j :: 0 <= i < j < |b.records| ==> b.records[i].id != b.records[j].id)
    && (forall i, j :: 0 <= i < j < |b.records| ==> b.records[i].order != b.records[j].order)
    && (forall i :: 0 <= i < |b.records| ==> b.records[i].order < |b.records| && RecordCanonical(k, b.records[i]))
  }

  predicate RecordCanonical(k: Kernel, r: Record)
  {
    r.id == r.proposal.id && r.hash == k.proposalHash(r.proposal) && r.expected.proposalId == r.id && !r.expected.replayed
  }

  function IsPersisted(): Event -> bool
  {
    (e: Event) => e.payload.persisted
  }

  function Persisted(audit: seq<Event>): seq<Event>
  {
    Filter(IsPersisted(), audit)
  }

  lemma PersistedSnoc(audit: seq<Event>, e: Event)
    ensures Persisted(audit + [e]) == if e.payload.persisted then Persisted(audit) + [e] else Persisted(audit)
  {
    FilterSnoc(IsPersisted(), audit, e);
  }

  /** The position of the first persisted event with this proposal id. */
  function OrderOf(persisted: seq<Event>, id: Id): Option<nat>
  {
    if persisted == [] then None
    else if persisted[0].payload.proposal.id == id then Some(0)
    else
      var rest := OrderOf(persisted[1..], id);
      if rest.None? then None else Some(rest.value + 1)
  }

  predicate DistinctProposals(events: seq<Event>)
  {
    forall i, j :: 0 <= i < j < |events| ==> events[i].payload.proposal.id != events[j].payload.proposal.id
  }

  /** The loop of `_transaction_replay_orders`; it raises on a repeated id. */
  method ReplayOrders(audit: seq<Event>) returns (orders: Result<map<Id, nat>>)
    ensures orders.Ok? <==> DistinctProposals(Persisted(audit))
    ensures orders.Ok? ==> forall id ::
      OrderOf(Persisted(audit), id) == if id in orders.value then Some(orders.value[id]) else None
  {
    var found: map<Id, nat> := map[];
    for i := 0 to |audit|
      invariant DistinctProposals(Persisted(audit[..i]))
      invariant |found| == |Persisted(audit[..i])|
      invariant forall id :: OrderOf(Persisted(audit[..i]), id) == if id in found then Some(found[id]) else None
    {
      var e := audit[i];
      ghost var before := Persisted(audit[..i]);
      PersistedSnoc(audit[..i], e);
      assert audit[..i + 1] == audit[..i] + [e];
      if e.payload.persisted {
        var id := e.payload.proposal.id;
        forall other
          ensures OrderOf(before + [e], other)
               == if OrderOf(before, other).Some? then OrderOf(before, other) else if id == other then Some(|before|) else None
        {
          OrderOfSnoc(before, e, other);
        }
        if id in found {
          PersistedPrefix(audit, i + 1);
          RepeatedId(before, e);
          return Raised;
        }
        NewIdDistinct(before, e);
        found := found[id := |found|];
      }
    }
    assert audit[..|audit|] == audit;
    return Ok(found);
  }

  lemma {:induction false} OrderOfSnoc(persisted: seq<Event>, e: Event, id: Id)
    ensures OrderOf(persisted + [e], id)
         == if OrderOf(persisted, id).Some? then OrderOf(persisted, id)
            else if e.payload.proposal.id == id then Some(|persisted|) else None
  {
    if persisted == [] {
      assert persisted + [e] == [e];
    } else {
      OrderOfSnoc(persisted[1..], e, id);
      assert (persisted + [e])[1..] == persisted[1..] + [e];
    }
  }

  lemma {:induction false} OrderOfAt(persisted: seq<Event>, id: Id)
    ensures OrderOf(persisted, id).Some? ==>
      var i := OrderOf(persisted, id).value; i < |persisted| && persisted[i].payload.proposal.id == id
    ensures OrderOf(persisted, id).None? ==> forall i :: 0 <= i < |persisted| ==> persisted[i].payload.proposal.id != id
  {
    if persisted != [] {
      OrderOfAt(persisted[1..], id);
      assert forall i :: 0 < i < |persisted| ==> persisted[i] == persisted[1..][i - 1];
    }
  }

  lemma RepeatedId(persisted: seq<Event>, e: Event)
    requires OrderOf(persisted, e.payload.proposal.id).Some?
    ensures !DistinctProposals(persisted + [e])
  {
    OrderOfAt(persisted, e.payload.proposal.id);
    var i := OrderOf(persisted, e.payload.proposal.id).value;
    assert (persisted + [e])[i].payload.proposal.id == (persisted + [e])[|persisted|].payload.proposal.id;
  }

  lemma NewIdDistinct(persisted: seq<Event>, e: Event)
    requires DistinctProposals(persisted) && OrderOf(persisted, e.payload.proposal.id).None?
    ensures DistinctProposals(persisted + [e])
  {
    OrderOfAt(persisted, e.payload.proposal.id);
  }

  lemma {:induction false} PersistedPrefix(audit: seq<Event>, n: nat)
    requires n <= |audit|
    ensures Persisted(audit[..n]) <= Persisted(audit)
    decreases |audit| - n
  {
    if n == |audit| {
      assert audit[..n] == audit;
    } else {
      PersistedPrefix(audit, n + 1);
      PersistedSnoc(audit[..n], audit[n]);
      assert audit[..n + 1] == audit[..n] + [audit[n]];
    }
  }

  function RecordFor(k: Kernel, persisted: seq<Event>, t: Stored): Record
    requires OrderOf(persisted, t.proposal.id).Some? && OrderOf(persisted, t.proposal.id).value < |persisted|
  {
    var order := OrderOf(persisted, t.proposal.id).value;
    Record(t.proposal.id, order, persisted[order].payload.policyHash, k.proposalHash(t.proposal), t.proposal,
           t.decision.(replayed := false), Some(Intent(t.fingerprint, persisted[order].sequence, persisted[order].hash)))
  }

  predicate Exportable(ws: Workspace)
  {
    var persisted := Persisted(ws.audit);
    && ws.active.Some?
    && DistinctProposals(persisted)
    && forall i :: 0 <= i < |ws.stored| ==> Placed(persisted, ws.stored[i])
  }

  predicate Placed(persisted: seq<Event>, t: Stored)
  {
    OrderOf(persisted, t.proposal.id).Some? && OrderOf(persisted, t.proposal.id).value < |persisted|
  }

  function RecordsFor(k: Kernel, persisted: seq<Event>, stored: seq<Stored>): seq<Record>
    requires forall i :: 0 <= i < |stored| ==> Placed(persisted, stored[i])
  {
    seq(|stored|, i requires 0 <= i < |stored| && Placed(persisted, stored[i]) => RecordFor(k, persisted, stored[i]))
  }

  function Bundled(k: Kernel, ws: Workspace, records: seq<Record>): Bundle
    requires ws.active.Some?
  {
    var persisted := Persisted(ws.audit);
    var bootstrap := if persisted == [] then ws.active.value else persisted[0].payload.policyHash;
    Bundle(bootstrap, ws.active.value, ws.policies, Sort(RecordLeq, records), k.projections(ws.accepted), k.artifacts(ws.stored))
  }

  function Export(k: Kernel, ws: Workspace): Result<Bundle>
  {
    if !Exportable(ws) then Raised else Ok(Bundled(k, ws, RecordsFor(k, Persisted(ws.audit), ws.stored)))
  }

  /** The records in replay order. */
  function InOrder(b: Bundle): seq<Record>
  {
    Sort(OrderLeq, b.records)
  }

  // ---- import ----

  function Matching(p: Proposal, r: Record): Event -> bool
    requires r.intent.Some?
  {
    (e: Event) => EventMatches(p, r, e)
  }

  predicate EventMatches(p: Proposal, r: Record, e: Event)
    requires r.intent.Some?
  {
    && e.sequence == r.intent.value.eventSequence && e.hash == r.intent.value.eventHash
    && e.payload.proposal == p && e.payload.decision == r.expected
    && e.payload.policyHash == r.governing && e.payload.persisted
  }

  /** The retained transaction and exactly one audit event agree with the record. */
  predicate ReplayMatches(k: Kernel, ws: Workspace, p: Proposal, r: Record)
    requires r.intent.Some?
  {
    var kept := ByKey(ws.stored, p.key);
    && kept.Some?
    && k.proposalHash(kept.value.proposal) == r.hash && kept.value.proposal == p
    && kept.value.decision == r.expected && kept.value.fingerprint == r.intent.value.fingerprint
    && |Filter(Matching(p, r), ws.audit)| == 1
  }

  function FingerprintOf(k: Kernel, r: Record): Option<Digest>
  {
    if r.intent.Some? then r.intent.value.fingerprint else Some(k.attemptFingerprint(r.proposal))
  }

  predicate Replays(k: Kernel, ws: Workspace, prior: Stored, r: Record)
  {
    && prior.fingerprint == FingerprintOf(k, r)
    && (r.intent.Some? ==> k.proposalHash(prior.proposal) == r.hash)
    && prior.proposal.id == r.id && prior.decision.proposalId == r.id
    && (r.intent.Some? ==> prior.decision.(replayed := false) == r.expected && ReplayMatches(k, ws, prior.proposal, r))
  }

  function SubmitIntent(k: Kernel, ws: Workspace, configured: Policy, r: Record, at: Time): Result<(Workspace, Decision)>
  {
    var prior := ByKey(ws.stored, r.proposal.key);
    if prior.Some? then
      if Replays(k, ws, prior.value, r) then Ok((ws, prior.value.decision.(replayed := true)))
      else
        var d := Rejection(r.id, IdempotencyConflict, REUSED_ATTEMPT);
        Ok((if ws.active.Some? then Audited(k, ws, configured, Invalid(r.id, r.proposal.key, REUSED_ATTEMPT), d, FingerprintOf(k, r), at) else ws, d))
    else
      var (after, d) := SubmitLocked(k, ws, configured, r.proposal, FingerprintOf(k, r), at);
      if r.intent.Some? && d.(replayed := false) == r.expected && !ReplayMatches(k, after, r.proposal, r) then Raised
      else Ok((after, d))
  }

  function ConflictCode(d: Decision): Option<Code>
  {
    if d.accepted || d.reasons == [] then None
    else if d.reasons[0].code in {IdempotencyConflict, EntityAlreadyExists} then Some(d.reasons[0].code)
    else None
  }

  datatype Conflict = Conflict(id: Id, code: Code)

  datatype Tally = Tally(imported: nat, replayed: nat, conflicts: seq<Conflict>)

  const ZERO := Tally(0, 0, [])

  /** A retained transaction with the same content but another decision, met by a conflict. */
  predicate DecisionChanged(k: Kernel, prior: Option<Stored>, r: Record, d: Decision)
  {
    && prior.Some? && k.proposalHash(prior.value.proposal) == r.hash && prior.value.proposal == r.proposal
    && prior.value.decision != r.expected && ConflictCode(d).Some?
  }

  function Count(k: Kernel, tally: Tally, prior: Option<Stored>, r: Record, d: Decision): Result<Tally>
  {
    if DecisionChanged(k, prior, r, d) then Raised
    else if d.replayed then
      if d.(replayed := false) != r.expected then Raised else Ok(tally.(replayed := tally.replayed + 1))
    else if d == r.expected then Ok(tally.(imported := tally.imported + 1))
    else if ConflictCode(d).Some? then Ok(tally.(conflicts := tally.conflicts + [Conflict(r.id, ConflictCode(d).value)]))
    else Raised
  }

  /** What the loop makes of one submission's answer. */
  function Tallied(k: Kernel, tally: Tally, prior: Option<Stored>, r: Record, submitted: Result<(Workspace, Decision)>): Result<(Workspace, Tally)>
  {
    if submitted.Raised? then Raised
    else
      var counted := Count(k, tally, prior, r, submitted.value.1);
      if counted.Raised? then Raised else Ok((submitted.value.0, counted.value))
  }

  function ImportRecord(k: Kernel, policies: set<Policy>, ws: Workspace, tally: Tally, r: Record, at: Time): Result<(Workspace, Tally)>
  {
    if r.governing !in policies then Raised
    else Tallied(k, tally, ByKey(ws.stored, r.proposal.key), r, SubmitIntent(k, ws, r.governing, r, at))
  }

  function ImportStep(k: Kernel, policies: set<Policy>, clock: Clock): ((Workspace, Tally), Record) -> Result<(Workspace, Tally)>
  {
    (state: (Workspace, Tally), r: Record) => ImportRecord(k, policies, state.0, state.1, r, clock(r.order))
  }

  function ImportAll(k: Kernel, policies: set<Policy>, ws: Workspace, records: seq<Record>, clock: Clock): Result<(Workspace, Tally)>
  {
    Fold(ImportStep(k, policies, clock), (ws, ZERO), records)
  }

  /** Rebuilt records may add the intent metadata a legacy record lacks, nothing else. */
  predicate RecordMatches(source: Record, rebuilt: Record)
  {
    source == rebuilt || (source.intent.None? && source.(intent := rebuilt.intent) == rebuilt)
  }

  predicate BundleMatches(source: Bundle, rebuilt: Bundle)
  {
    || source == rebuilt
    || (&& (exists i :: 0 <= i < |source.records| && source.records[i].intent.None?)
        && source.bootstrap == rebuilt.bootstrap && source.active == rebuilt.active && source.policies == rebuilt.policies
        && source.projections == rebuilt.projections && source.artifacts == rebuilt.artifacts
        && |source.records| == |rebuilt.records|
        && forall i :: 0 <= i < |source.records| ==> RecordMatches(source.records[i], rebuilt.records[i]))
  }

  predicate HasDurableState(ws: Workspace)
  {
    ws.stored != [] || ws.audit != [] || ws.policies != {}
  }

  function Prepare(b: Bundle, ws: Workspace): Result<Workspace>
  {
    if b.bootstrap !in b.policies then Raised
    else if ws.active.None? then
      if HasDurableState(ws) then Raised
      else Ok(ws.(policies := {b.bootstrap}, active := Some(b.bootstrap)))
    else if b.bootstrap !in ws.policies then Raised
    else Ok(ws)
  }

  datatype Import = Import(tally: Tally, verified: bool)

  function Commit(k: Kernel, b: Bundle, ws: Workspace, clock: Clock): Result<(Workspace, Import)>
  {
    var prepared := Prepare(b, ws);
    if prepared.Raised? then Raised
    else
      var replayed := ImportAll(k, b.policies, prepared.value, InOrder(b), clock);
      if replayed.Raised? then Raised
      else Concluded(b, replayed.value.0, replayed.value.1, Export(k, replayed.value.0))
  }

  /** Conflicts are committed as they are; otherwise the rebuilt export has to match. */
  function Concluded(b: Bundle, after: Workspace, tally: Tally, rebuilt: Result<Bundle>): Result<(Workspace, Import)>
  {
    if tally.conflicts != [] then Ok((after, Import(tally, false)))
    else if rebuilt.Raised? || !BundleMatches(b, rebuilt.value) then Raised
    else Ok((after, Import(tally, true)))
  }

  function ExpectedCode(expected: seq<Conflict>, id: Id): Option<Code>
  {
    if expected == [] then None
    else
      var rest := ExpectedCode(expected[1..], id);
      if rest.Some? then rest else if expected[0].id == id then Some(expected[0].code) else None
  }

  function CommitConflict(k: Kernel, b: Bundle, expected: seq<Conflict>, ws: Workspace, actual: seq<Conflict>, r: Record, at: Time)
    : Result<(Workspace, seq<Conflict>)>
  {
    var code := ExpectedCode(expected, r.id);
    if code.None? then Ok((ws, actual))
    else if r.governing !in b.policies then Raised
    else
      var submitted := SubmitIntent(k, ws, r.governing, r, at);
      if submitted.Raised? || ConflictCode(submitted.value.1) != code then Raised
      else Ok((submitted.value.0, actual + [Conflict(r.id, code.value)]))
  }

  function ConflictStep(k: Kernel, b: Bundle, expected: seq<Conflict>, clock: Clock): ((Workspace, seq<Conflict>), Record) -> Result<(Workspace, seq<Conflict>)>
  {
    (state: (Workspace, seq<Conflict>), r: Record) => CommitConflict(k, b, expected, state.0, state.1, r, clock(r.order))
  }

  /** Only the records that conflicted in the preflight are submitted again. */
  function ConflictsOnly(k: Kernel, b: Bundle, expected: seq<Conflict>, ws: Workspace, clock: Clock): Result<(Workspace, Import)>
  {
    var committed := Fold(ConflictStep(k, b, expected, clock), (ws, []), InOrder(b));
    if committed.Raised? || committed.value.1 != expected then Raised
    else Ok((committed.value.0, Import(Tally(0, 0, expected), false)))
  }

  /** The whole import: a preflight on a clone of the target, then the commit it predicts. */
  function ImportWorkspace(k: Kernel, b: Bundle, target: Workspace, clocks: Clocks): Result<(Workspace, Import)>
  {
    var staged := StagedClone(k, b, target, clocks.clone);
    if staged.Raised? then Raised
    else
      var preflight := Commit(k, b, staged.value, clocks.preflight);
      if preflight.Raised? then Raised
      else if preflight.value.1.tally.conflicts != [] then
        ConflictsOnly(k, b, preflight.value.1.tally.conflicts, target, clocks.commit)
      else
        var committed := Commit(k, b, target, clocks.commit);
        if committed.Raised? || committed.value.1 != preflight.value.1 then Raised else committed
  }

  function StagedClone(k: Kernel, b: Bundle, target: Workspace, clock: Clock): Result<Workspace>
  {
    if target.active.None? then
      if HasDurableState(target) then Raised else Ok(EMPTY)
    else if b.bootstrap !in target.policies then Raised
    else
      var before := Export(k, target);
      if before.Raised? then Raised
      else
        var cloned := Commit(k, before.value, EMPTY, clock);
        if cloned.Raised? || !cloned.value.1.verified then Raised else Ok(cloned.value.0)
  }

  // ---- the imperative form ----

  class Repositories {
    var policies: set<Policy>
    var active: Option<Digest>
    var stored: seq<Stored>
    var audit: seq<Event>
    var accepted: seq<Accepted>

    function Contents(): Workspace
      reads this
    {
      Workspace(policies, active, stored, audit, accepted)
    }

    constructor ()
      ensures Contents() == EMPTY
    {
      policies, active, stored, audit, accepted := {}, None, [], [], [];
    }

    /** A rolled-back or committed unit of work. */
    method Restore(ws: Workspace)
      modifies this
      ensures Contents() == ws
    {
      policies, active, stored, audit, accepted := ws.policies, ws.active, ws.stored, ws.audit, ws.accepted;
    }

    method Audit(k: Kernel, configured: Policy, p: Proposal, d: Decision, fingerprint: Option<Digest>, governing: Digest, at: Time)
      requires active.Some?
      modifies this`audit
      ensures audit == old(audit) + [NextEvent(k, old(audit), Payload(p, d, governing,
        if configured in policies then Some(configured) else None,
        ByKey(stored, p.key) == Some(Stored(p, d, fingerprint)), fingerprint), at)]
    {
      var kept := ByKey(stored, p.key);
      var persisted := kept == Some(Stored(p, d, fingerprint));
      var registered := if configured in policies then Some(configured) else None;
      audit := audit + [NextEvent(k, audit, Payload(p, d, governing, registered, persisted, fingerprint), at)];
    }

    /** `submit_intent` on the open unit of work. */
    method Submit(k: Kernel, configured: Policy, r: Record, at: Time) returns (result: Result<Decision>)
      modifies this
      ensures
        var spec := SubmitIntent(k, old(Contents()), configured, r, at);
        && (spec.Ok? ==> result == Ok(spec.value.1) && Contents() == spec.value.0)
        && (spec.Raised? ==> result == Raised)
    {
      var before := Contents();
      var fingerprint := FingerprintOf(k, r);
      var prior := ByKey(stored, r.proposal.key);
      if prior.Some? {
        if Replays(k, before, prior.value, r) {
          return Ok(prior.value.decision.(replayed := true));
        }
        var conflict := Rejection(r.id, IdempotencyConflict, REUSED_ATTEMPT);
        if active.Some? {
          Audit(k, configured, Invalid(r.id, r.proposal.key, REUSED_ATTEMPT), conflict, fingerprint, active.value, at);
        }
        return Ok(conflict);
      }
      var outcome := SubmitLocked(k, before, configured, r.proposal, fingerprint, at);
      Restore(outcome.0);
      if r.intent.Some? && outcome.1.(replayed := false) == r.expected && !ReplayMatches(k, outcome.0, r.proposal, r) {
        return Raised;
      }
      return Ok(outcome.1);
    }

    /** One round of `_replay_records`: submit, then count what came back. */
    method ReplayRecord(k: Kernel, policies: set<Policy>, tally: Tally, r: Record, at: Time) returns (result: Result<Tally>)
      modifies this
      ensures
        var spec := ImportRecord(k, policies, old(Contents()), tally, r, at);
        && (spec.Ok? ==> result == Ok(spec.value.1) && Contents() == spec.value.0)
        && (spec.Raised? ==> result == Raised)
    {
      if r.governing !in policies {
        return Raised;
      }
      var prior := ByKey(stored, r.proposal.key);
      var submitted := Submit(k, r.governing, r, at);
      if submitted.Raised? {
        return Raised;
      }
      result := Count(k, tally, prior, r, submitted.value);
    }

    /** The loop of `_replay_records`. */
    method ReplayRecords(k: Kernel, b: Bundle, clock: Clock) returns (result: Result<Tally>)
      modifies this
      ensures
        var spec := ImportAll(k, b.policies, old(Contents()), InOrder(b), clock);
        && (spec.Ok? ==> result == Ok(spec.value.1) && Contents() == spec.value.0)
        && (spec.Raised? ==> result == Raised)
    {
      ghost var start := Contents();
      var records := InOrder(b);
      var tally := ZERO;
      for i := 0 to |records|
        invariant ImportAll(k, b.policies, start, records[..i], clock) == Ok((Contents(), tally))
      {
        ImportSnoc(k, b.policies, start, records[..i], records[i], clock);
        assert records[..i + 1] == records[..i] + [records[i]];
        var next := ReplayRecord(k, b.policies, tally, records[i], clock(records[i].order));
        if next.Raised? {
          if ImportAll(k, b.policies, start, records, clock).Ok? {
            FoldPrefix(ImportStep(k, b.policies, clock), (start, ZERO), records, i + 1);
          }
          return Raised;
        }
        tally := next.value;
      }
      assert records[..|records|] == records;
      return Ok(tally);
    }

    /** `_commit_workspace` without artifacts: a raised error rolls every table back. */
    method CommitBundle(k: Kernel, b: Bundle, clock: Clock) returns (result: Result<Import>)
      modifies this
      ensures
        var spec := Commit(k, b, old(Contents()), clock);
        && (spec.Ok? ==> result == Ok(spec.value.1) && Contents() == spec.value.0)
        && (spec.Raised? ==> result == Raised && Contents() == old(Contents()))
    {
      var before := Contents();
      var prepared := Prepare(b, before);
      if prepared.Raised? {
        return Raised;
      }
      Restore(prepared.value);
      var tally := ReplayRecords(k, b, clock);
      if tally.Raised? {
        Restore(before);
        return Raised;
      }
      if tally.value.conflicts != [] {
        return Ok(Import(tally.value, false));
      }
      var rebuilt := Export(k, Contents());
      if rebuilt.Raised? || !BundleMatches(b, rebuilt.value) {
        Restore(before);
        return Raised;
      }
      return Ok(Import(tally.value, true));
    }

    /** One round of `_commit_conflicts`. */
    method ReplayConflict(k: Kernel, b: Bundle, expected: seq<Conflict>, actual: seq<Conflict>, r: Record, at: Time)
      returns (result: Result<seq<Conflict>>)
      modifies this
      ensures
        var spec := CommitConflict(k, b, expected, old(Contents()), actual, r, at);
        && (spec.Ok? ==> result == Ok(spec.value.1) && Contents() == spec.value.0)
        && (spec.Raised? ==> result == Raised)
    {
      var code := ExpectedCode(expected, r.id);
      if code.None? {
        return Ok(actual);
      }
      if r.governing !in b.policies {
        return Raised;
      }
      var submitted := Submit(k, r.governing, r, at);
      if submitted.Raised? || ConflictCode(submitted.value) != code {
        return Raised;
      }
      return Ok(actual + [Conflict(r.id, code.value)]);
    }

    /** `_commit_conflicts`. */
    method CommitConflicts(k: Kernel, b: Bundle, expected: seq<Conflict>, clock: Clock) returns (result: Result<Import>)
      modifies this
      ensures
        var spec := ConflictsOnly(k, b, expected, old(Contents()), clock);
        && (spec.Ok? ==> result == Ok(spec.value.1) && Contents() == spec.value.0)
        && (spec.Raised? ==> result == Raised && Contents() == old(Contents()))
    {
      hide CommitConflict;
      var before := Contents();
      ghost var step := ConflictStep(k, b, expected, clock);
      var records := InOrder(b);
      var actual := [];
      for i := 0 to |records|
        invariant Fold(step, (before, []), records[..i]) == Ok((Contents(), actual))
      {
        FoldSnoc(step, (before, []), records[..i], records[i]);
        assert records[..i + 1] == records[..i] + [records[i]];
        var next := ReplayConflict(k, b, expected, actual, records[i], clock(records[i].order));
        if next.Raised? {
          if Fold(step, (before, []), records).Ok? {
            FoldPrefix(step, (before, []), records, i + 1);
          }
          Restore(before);
          return Raised;
        }
        actual := next.value;
      }
      assert records[..|records|] == records;
      if actual != expected {
        Restore(before);
        return Raised;
      }
      return Ok(Import(Tally(0, 0, expected), false));
    }

    /** `import_workspace` without artifacts: the preflight runs in a temporary workspace. */
    method ImportBundle(k: Kernel, b: Bundle, clocks: Clocks) returns (result: Result<Import>)
      modifies this
      ensures
        var spec := ImportWorkspace(k, b, old(Contents()), clocks);
        && (spec.Ok? ==> result == Ok(spec.value.1) && Contents() == spec.value.0)
        && (spec.Raised? ==> result == Raised && Contents() == old(Contents()))
    {
      hide Commit, ConflictsOnly, Export;
      var target := Contents();
      var staged := new Repositories();
      if active.None? {
        if HasDurableState(target) {
          return Raised;
        }
      } else {
        if b.bootstrap !in policies {
          return Raised;
        }
        var before := Export(k, target);
        if before.Raised? {
          return Raised;
        }
        var cloned := staged.CommitBundle(k, before.value, clocks.clone);
        if cloned.Raised? || !cloned.value.verified {
          return Raised;
        }
      }
      var preflight := staged.CommitBundle(k, b, clocks.preflight);
      if preflight.Raised? {
        return Raised;
      }
      if preflight.value.tally.conflicts != [] {
        result := CommitConflicts(k, b, preflight.value.tally.conflicts, clocks.commit);
        return;
      }
      result := CommitBundle(k, b, clocks.commit);
      if result.Ok? && result.value != preflight.value {
        Restore(target);
        return Raised;
      }
    }
  }

  lemma ImportSnoc(k: Kernel, policies: set<Policy>, ws: Workspace, records: seq<Record>, r: Record, clock: Clock)
    ensures ImportAll(k, policies, ws, records + [r], clock)
         == if ImportAll(k, policies, ws, records, clock).Raised? then Raised
            else ImportRecord(k, policies, ImportAll(k, policies, ws, records, clock).value.0, ImportAll(k, policies, ws, records, clock).value.1, r, clock(r.order))
  {}
}
