/** What export and import keep of the decision log, for every log a coordinator can write. */
module ExchangeProofs {
  import opened Common
  import opened Ordering
  import opened WorkspaceExchange

  // ---- the log determines the tables ----

  function StoredOf(persisted: seq<Event>): seq<Stored>
  {
    seq(|persisted|, i requires 0 <= i < |persisted| =>
      Stored(persisted[i].payload.proposal, persisted[i].payload.decision, persisted[i].payload.fingerprint))
  }

  function AcceptedOf(persisted: seq<Event>): seq<Accepted>
  {
    if persisted == [] then []
    else
      var last := persisted[|persisted| - 1];
      AcceptedOf(persisted[..|persisted| - 1])
      + (if last.payload.decision.accepted then [Accepted(last.payload.proposal, last.occurredAt)] else [])
  }

  function ActiveAfter(boot: Policy, accepted: seq<Accepted>): Policy
  {
    if accepted == [] then boot
    else
      var p := accepted[|accepted| - 1].proposal;
      if p.Authored? && p.candidate.Some? then p.candidate.value else ActiveAfter(boot, accepted[..|accepted| - 1])
  }

  function PoliciesAfter(boot: Policy, accepted: seq<Accepted>): set<Policy>
  {
    if accepted == [] then {boot}
    else
      var p := accepted[|accepted| - 1].proposal;
      PoliciesAfter(boot, accepted[..|accepted| - 1]) + (if p.Authored? && p.candidate.Some? then {p.candidate.value} else {})
  }

  ghost predicate Chained(k: Kernel, audit: seq<Event>)
  {
    forall i :: 0 <= i < |audit| ==> audit[i] == NextEvent(k, audit[..i], audit[i].payload, audit[i].occurredAt)
  }

  /** A stored decision was governed by the active policy and is the handler's own answer, or a
      rejection of a coordinator configured with another policy. */
  ghost predicate Governed(k: Kernel, boot: Policy, earlier: seq<Accepted>, e: Event)
  {
    && e.payload.policyHash == ActiveAfter(boot, earlier)
    && (if e.payload.configured == Some(e.payload.policyHash)
        then e.payload.decision == k.decide(earlier, e.payload.policyHash, e.occurredAt, e.payload.proposal)
        else e.payload.decision == Mismatch(e.payload.proposal.id))
  }

  function Mismatch(id: Id): Decision
  {
    Rejection(id, PolicyHashMismatch, "stored active policy does not match the configured policy snapshot")
  }

  ghost predicate DistinctKeys(stored: seq<Stored>)
  {
    && (forall i, j :: 0 <= i < j < |stored| ==> stored[i].proposal.key != stored[j].proposal.key)
    && (forall i, j :: 0 <= i < j < |stored| ==> stored[i].proposal.id != stored[j].proposal.id)
  }

  ghost predicate AllGoverned(k: Kernel, boot: Policy, persisted: seq<Event>)
  {
    forall i :: 0 <= i < |persisted| ==> Governed(k, boot, AcceptedOf(persisted[..i]), persisted[i])
  }

  /** The tables are exactly what the persisted events of a hash-linked log say. */
  ghost predicate Sound(k: Kernel, boot: Policy, ws: Workspace)
  {
    var persisted := Persisted(ws.audit);
    && Chained(k, ws.audit)
    && ws.stored == StoredOf(persisted)
    && ws.accepted == AcceptedOf(persisted)
    && ws.policies == PoliciesAfter(boot, ws.accepted)
    && ws.active == Some(ActiveAfter(boot, ws.accepted))
    && DistinctKeys(ws.stored)
    && AllGoverned(k, boot, persisted)
  }

  function Fresh(boot: Policy): Workspace
  {
    Workspace({boot}, Some(boot), [], [], [])
  }

  // ---- lookups ----

  lemma {:induction false} ByKeyMeans(stored: seq<Stored>, key: Id)
    ensures ByKey(stored, key).None? <==> forall i :: 0 <= i < |stored| ==> stored[i].proposal.key != key
    ensures ByKey(stored, key).Some? ==> exists i :: 0 <= i < |stored| && stored[i] == ByKey(stored, key).value && stored[i].proposal.key == key
  {
    if stored != [] {
      ByKeyMeans(stored[1..], key);
      assert forall i :: 0 < i < |stored| ==> stored[i] == stored[1..][i - 1];
      if stored[0].proposal.key != key && ByKey(stored[1..], key).Some? {
        var i :| 0 <= i < |stored[1..]| && stored[1..][i] == ByKey(stored[1..], key).value;
        assert stored[i + 1] == ByKey(stored, key).value;
      }
    }
  }

  lemma {:induction false} ByIdMeans(stored: seq<Stored>, id: Id)
    ensures ById(stored, id).None? <==> forall i :: 0 <= i < |stored| ==> stored[i].proposal.id != id
  {
    if stored != [] {
      ByIdMeans(stored[1..], id);
      assert forall i :: 0 < i < |stored| ==> stored[i] == stored[1..][i - 1];
    }
  }

  lemma ByKeyAt(stored: seq<Stored>, i: nat)
    requires DistinctKeys(stored) && i < |stored|
    ensures ByKey(stored, stored[i].proposal.key) == Some(stored[i])
  {
    ByKeyMeans(stored, stored[i].proposal.key);
    var j :| 0 <= j < |stored| && stored[j] == ByKey(stored, stored[i].proposal.key).value && stored[j].proposal.key == stored[i].proposal.key;
    assert j == i;
  }

  lemma ByKeySnoc(stored: seq<Stored>, t: Stored)
    requires ByKey(stored, t.proposal.key).None?
    ensures ByKey(stored + [t], t.proposal.key) == Some(t)
  {
    ByKeyMeans(stored, t.proposal.key);
    ByKeyMeans(stored + [t], t.proposal.key);
    var all := stored + [t];
    assert all[|stored|].proposal.key == t.proposal.key;
    var j :| 0 <= j < |all| && all[j] == ByKey(all, t.proposal.key).value && all[j].proposal.key == t.proposal.key;
    if j < |stored| {
      assert all[j] == stored[j];
    }
  }

  lemma AcceptedSnoc(persisted: seq<Event>, e: Event)
    ensures AcceptedOf(persisted + [e]) == AcceptedOf(persisted)
      + (if e.payload.decision.accepted then [Accepted(e.payload.proposal, e.occurredAt)] else [])
    ensures StoredOf(persisted + [e]) == StoredOf(persisted) + [Stored(e.payload.proposal, e.payload.decision, e.payload.fingerprint)]
  {}

  lemma PolicySnoc(boot: Policy, accepted: seq<Accepted>, a: Accepted)
    ensures ActiveAfter(boot, accepted + [a])
         == if a.proposal.Authored? && a.proposal.candidate.Some? then a.proposal.candidate.value else ActiveAfter(boot, accepted)
    ensures PoliciesAfter(boot, accepted + [a])
         == PoliciesAfter(boot, accepted) + (if a.proposal.Authored? && a.proposal.candidate.Some? then {a.proposal.candidate.value} else {})
  {}

  lemma {:induction false} ActiveRegistered(boot: Policy, accepted: seq<Accepted>)
    ensures ActiveAfter(boot, accepted) in PoliciesAfter(boot, accepted) && boot in PoliciesAfter(boot, accepted)
  {
    if accepted != [] {
      ActiveRegistered(boot, accepted[..|accepted| - 1]);
    }
  }

  // ---- every coordinator run keeps the log sound ----

  lemma ChainSnoc(k: Kernel, audit: seq<Event>, payload: Payload, at: Time)
    requires Chained(k, audit)
    ensures Chained(k, audit + [NextEvent(k, audit, payload, at)])
  {}

  lemma UnpersistedKeepsSound(k: Kernel, boot: Policy, ws: Workspace, payload: Payload, at: Time)
    requires Sound(k, boot, ws) && !payload.persisted
    ensures Sound(k, boot, ws.(audit := ws.audit + [NextEvent(k, ws.audit, payload, at)]))
  {
    ChainSnoc(k, ws.audit, payload, at);
    PersistedSnoc(ws.audit, NextEvent(k, ws.audit, payload, at));
  }

  lemma GovernedSnoc(k: Kernel, boot: Policy, persisted: seq<Event>, e: Event)
    requires AllGoverned(k, boot, persisted) && Governed(k, boot, AcceptedOf(persisted), e)
    ensures AllGoverned(k, boot, persisted + [e])
  {
    var longer := persisted + [e];
    forall i | 0 <= i < |longer|
      ensures Governed(k, boot, AcceptedOf(longer[..i]), longer[i])
    {
      if i < |persisted| {
        assert longer[..i] == persisted[..i];
      } else {
        assert longer[..i] == persisted;
      }
    }
  }

  /** The event a recorded decision appends. */
  function RecordedEvent(k: Kernel, ws: Workspace, configured: Policy, p: Proposal, d: Decision, fingerprint: Option<Digest>, at: Time): Event
    requires ws.active.Some?
  {
    NextEvent(k, ws.audit, Payload(p, d, ws.active.value, if configured in ws.policies then Some(configured) else None, true, fingerprint), at)
  }

  lemma RecordedShape(k: Kernel, ws: Workspace, configured: Policy, p: Proposal, d: Decision, fingerprint: Option<Digest>, at: Time)
    requires ws.active.Some? && ByKey(ws.stored, p.key).None?
    ensures
      var after := Recorded(k, ws, configured, p, d, fingerprint, at);
      && after.audit == ws.audit + [RecordedEvent(k, ws, configured, p, d, fingerprint, at)]
      && after.stored == ws.stored + [Stored(p, d, fingerprint)]
      && after.accepted == ws.accepted + (if d.accepted then [Accepted(p, at)] else [])
      && after.policies == ws.policies + (if d.accepted && p.Authored? && p.candidate.Some? then {p.candidate.value} else {})
      && after.active == (if d.accepted && p.Authored? && p.candidate.Some? then p.candidate else ws.active)
  {
    ByKeySnoc(ws.stored, Stored(p, d, fingerprint));
  }

  lemma NewKeyDistinct(stored: seq<Stored>, t: Stored)
    requires DistinctKeys(stored) && ByKey(stored, t.proposal.key).None? && ById(stored, t.proposal.id).None?
    ensures DistinctKeys(stored + [t])
  {
    ByKeyMeans(stored, t.proposal.key);
    ByIdMeans(stored, t.proposal.id);
  }

  lemma RecordedKeepsSound(k: Kernel, boot: Policy, ws: Workspace, configured: Policy, p: Proposal, d: Decision, fingerprint: Option<Digest>, at: Time)
    requires Sound(k, boot, ws) && ByKey(ws.stored, p.key).None? && ById(ws.stored, p.id).None?
    requires d == if ws.active == Some(configured) then k.decide(ws.accepted, configured, at, p) else Mismatch(p.id)
    ensures Sound(k, boot, Recorded(k, ws, configured, p, d, fingerprint, at))
  {
    var e := RecordedEvent(k, ws, configured, p, d, fingerprint, at);
    var persisted := Persisted(ws.audit);
    RecordedShape(k, ws, configured, p, d, fingerprint, at);
    ChainSnoc(k, ws.audit, e.payload, at);
    PersistedSnoc(ws.audit, e);
    AcceptedSnoc(persisted, e);
    if d.accepted {
      PolicySnoc(boot, ws.accepted, Accepted(p, at));
    }
    ActiveRegistered(boot, ws.accepted);
    NewKeyDistinct(ws.stored, Stored(p, d, fingerprint));
    GovernedSnoc(k, boot, persisted, e);
  }

  /** A stored decision is never one of the coordinator's own refusals of a reused key. */
  lemma StoredNeverConflicts(k: Kernel, boot: Policy, ws: Workspace, i: nat)
    requires Lawful(k) && Sound(k, boot, ws) && i < |ws.stored|
    ensures ws.stored[i].decision.proposalId == ws.stored[i].proposal.id && !ws.stored[i].decision.replayed
    ensures forall id, message :: OwnMessage(message) ==> ws.stored[i].decision != Rejection(id, IdempotencyConflict, message)
  {
    hide Chained, DistinctKeys, OwnMessage;
    var e, earlier := Persisted(ws.audit)[i], AcceptedOf(Persisted(ws.audit)[..i]);
    assert Governed(k, boot, earlier, e);
    MismatchIsNoReuse(e.payload.proposal.id);
  }

  lemma MismatchIsNoReuse(id: Id)
    ensures forall other, message :: Mismatch(id) != Rejection(other, IdempotencyConflict, message)
  {}

  lemma ConflictUnpersisted(k: Kernel, boot: Policy, ws: Workspace, configured: Policy, p: Proposal, fingerprint: Option<Digest>, message: string, id: Id, at: Time)
    requires Lawful(k) && Sound(k, boot, ws) && OwnMessage(message)
    ensures Sound(k, boot, Audited(k, ws, configured, p, Rejection(id, IdempotencyConflict, message), fingerprint, at))
  {
    var d := Rejection(id, IdempotencyConflict, message);
    ByKeyMeans(ws.stored, p.key);
    assert ByKey(ws.stored, p.key) != Some(Stored(p, d, fingerprint)) by {
      if ByKey(ws.stored, p.key).Some? {
        var i :| 0 <= i < |ws.stored| && ws.stored[i] == ByKey(ws.stored, p.key).value;
        StoredNeverConflicts(k, boot, ws, i);
      }
    }
    UnpersistedKeepsSound(k, boot, ws,
      Payload(p, d, ws.active.value, if configured in ws.policies then Some(configured) else None, false, fingerprint), at);
  }

  lemma RejectionUnpersisted(k: Kernel, boot: Policy, ws: Workspace, configured: Policy, p: Proposal, d: Decision, fingerprint: Option<Digest>, at: Time)
    requires Sound(k, boot, ws) && ByKey(ws.stored, p.key).None?
    ensures Sound(k, boot, Audited(k, ws, configured, p, d, fingerprint, at))
  {
    hide NextEvent, Chained, AllGoverned, DistinctKeys, StoredOf, AcceptedOf, PoliciesAfter, ActiveAfter, Persisted;
    UnpersistedKeepsSound(k, boot, ws,
      Payload(p, d, ws.active.value, if configured in ws.policies then Some(configured) else None, false, fingerprint), at);
  }

  lemma SubmitLockedKeepsSound(k: Kernel, boot: Policy, ws: Workspace, configured: Policy, p: Proposal, fingerprint: Option<Digest>, at: Time)
    requires Lawful(k) && Sound(k, boot, ws)
    ensures Sound(k, boot, SubmitLocked(k, ws, configured, p, fingerprint, at).0)
  {
    ActiveRegistered(boot, ws.accepted);
    assert ws.active.Some? && ws.active.value in ws.policies;
    if ByKey(ws.stored, p.key).Some? {
      ConflictUnpersisted(k, boot, ws, configured, p, fingerprint, REUSED_CONTENT, p.id, at);
    } else {
      NewKeyKeepsSound(k, boot, ws, configured, p, fingerprint, at);
    }
  }

  lemma NewKeyKeepsSound(k: Kernel, boot: Policy, ws: Workspace, configured: Policy, p: Proposal, fingerprint: Option<Digest>, at: Time)
    requires Sound(k, boot, ws) && ByKey(ws.stored, p.key).None?
    requires ws.active.value in ws.policies
    ensures Sound(k, boot, SubmitLocked(k, ws, configured, p, fingerprint, at).0)
  {
    var d :=
      if ws.active != Some(configured) then Mismatch(p.id)
      else if ById(ws.stored, p.id).Some? then Rejection(p.id, EntityAlreadyExists, "proposal id already exists")
      else k.decide(ws.accepted, configured, at, p);
    if ById(ws.stored, p.id).None? {
      RecordedKeepsSound(k, boot, ws, configured, p, d, fingerprint, at);
    } else {
      RejectionUnpersisted(k, boot, ws, configured, p, d, fingerprint, at);
    }
  }

  lemma SubmitIntentKeepsSound(k: Kernel, boot: Policy, ws: Workspace, configured: Policy, r: Record, at: Time)
    requires Lawful(k) && Sound(k, boot, ws)
    ensures SubmitIntent(k, ws, configured, r, at).Ok? ==> Sound(k, boot, SubmitIntent(k, ws, configured, r, at).value.0)
  {
    if ByKey(ws.stored, r.proposal.key).Some? {
      ConflictUnpersisted(k, boot, ws, configured, Invalid(r.id, r.proposal.key, REUSED_ATTEMPT), FingerprintOf(k, r), REUSED_ATTEMPT, r.id, at);
    } else {
      SubmitLockedKeepsSound(k, boot, ws, configured, r.proposal, FingerprintOf(k, r), at);
    }
  }

  /** What a caller can do to a workspace. */
  datatype Step =
    | Direct(configured: Policy, proposal: Proposal, fingerprint: Option<Digest>, at: Time)
    | ByIntent(configured: Policy, record: Record, at: Time)

  function Run(k: Kernel, boot: Policy, steps: seq<Step>): Workspace
  {
    if steps == [] then Fresh(boot)
    else
      var ws := Run(k, boot, steps[..|steps| - 1]);
      match steps[|steps| - 1]
      case Direct(configured, p, fingerprint, at) => SubmitLocked(k, ws, configured, p, fingerprint, at).0
      case ByIntent(configured, r, at) =>
        var submitted := SubmitIntent(k, ws, configured, r, at);
        if submitted.Raised? then ws else submitted.value.0
  }

  lemma FreshIsSound(k: Kernel, boot: Policy)
    ensures Sound(k, boot, Fresh(boot))
  {}

  /** Every workspace that coordinators build from a fresh one is exactly what its persisted
      events say: the log determines every table. */
  lemma {:induction false} RunIsSound(k: Kernel, boot: Policy, steps: seq<Step>)
    requires Lawful(k)
    ensures Sound(k, boot, Run(k, boot, steps))
  {
    if steps == [] {
      FreshIsSound(k, boot);
    } else {
      RunIsSound(k, boot, steps[..|steps| - 1]);
      var ws := Run(k, boot, steps[..|steps| - 1]);
      match steps[|steps| - 1] {
        case Direct(configured, p, fingerprint, at) => SubmitLockedKeepsSound(k, boot, ws, configured, p, fingerprint, at);
        case ByIntent(configured, r, at) => SubmitIntentKeepsSound(k, boot, ws, configured, r, at);
      }
    }
  }

  // ---- export and replay order ----

  /** The record of the i-th persisted event. */
  function RecordAt(k: Kernel, ws: Workspace, i: nat): Record
    requires i < |ws.stored| && |ws.stored| == |Persisted(ws.audit)|
  {
    var t, e := ws.stored[i], Persisted(ws.audit)[i];
    Record(t.proposal.id, i, e.payload.policyHash, k.proposalHash(t.proposal), t.proposal, t.decision.(replayed := false),
           Some(Intent(t.fingerprint, e.sequence, e.hash)))
  }

  function Log(k: Kernel, ws: Workspace): seq<Record>
    requires |ws.stored| == |Persisted(ws.audit)|
  {
    seq(|ws.stored|, i requires 0 <= i < |ws.stored| && |ws.stored| == |Persisted(ws.audit)| => RecordAt(k, ws, i))
  }

  lemma OrderOfDistinct(persisted: seq<Event>, i: nat)
    requires DistinctProposals(persisted) && i < |persisted|
    ensures OrderOf(persisted, persisted[i].payload.proposal.id) == Some(i)
  {
    hide OrderOf;
    OrderOfAt(persisted, persisted[i].payload.proposal.id);
  }

  lemma DistinctStoredPlaces(persisted: seq<Event>)
    requires DistinctKeys(StoredOf(persisted))
    ensures DistinctProposals(persisted)
    ensures forall i :: 0 <= i < |persisted| ==> OrderOf(persisted, persisted[i].payload.proposal.id) == Some(i)
  {
    forall i, j | 0 <= i < j < |persisted|
      ensures persisted[i].payload.proposal.id != persisted[j].payload.proposal.id
    {
      assert StoredOf(persisted)[i].proposal.id != StoredOf(persisted)[j].proposal.id;
    }
    forall i | 0 <= i < |persisted|
      ensures OrderOf(persisted, persisted[i].payload.proposal.id) == Some(i)
    {
      OrderOfDistinct(persisted, i);
    }
  }

  lemma SoundIsExportable(k: Kernel, boot: Policy, ws: Workspace)
    requires Sound(k, boot, ws)
    ensures |ws.stored| == |Persisted(ws.audit)|
    ensures Exportable(ws) && RecordsFor(k, Persisted(ws.audit), ws.stored) == Log(k, ws)
  {
    hide Chained, AllGoverned, DistinctKeys, DistinctProposals;
    DistinctStoredPlaces(Persisted(ws.audit));
    StoredPlacesExport(k, Persisted(ws.audit), ws);
  }

  lemma StoredPlacesExport(k: Kernel, persisted: seq<Event>, ws: Workspace)
    requires persisted == Persisted(ws.audit) && ws.stored == StoredOf(persisted)
    requires forall i :: 0 <= i < |persisted| ==> OrderOf(persisted, persisted[i].payload.proposal.id) == Some(i)
    ensures forall i :: 0 <= i < |ws.stored| ==> Placed(persisted, ws.stored[i])
    ensures RecordsFor(k, persisted, ws.stored) == Log(k, ws)
  {}

  lemma OrderIsOrdered()
    ensures Orders(OrderLeq)
  {}

  lemma RecordsAreOrdered()
    ensures Orders(RecordLeq)
  {
    StringsAreOrdered();
  }

  /** A log sorted by identity for the bundle comes back in audit order when it is sorted by
      replay order. */
  lemma SortingRoundTrips(log: seq<Record>)
    requires forall i :: 0 <= i < |log| ==> log[i].order == i
    ensures Sort(OrderLeq, Sort(RecordLeq, log)) == log
  {
    OrderIsOrdered();
    RecordsAreOrdered();
    SortAscends(RecordLeq, log);
    SortAscends(OrderLeq, Sort(RecordLeq, log));
    AscendingUnique(OrderLeq, log, Sort(OrderLeq, Sort(RecordLeq, log)));
  }

  /** A sound workspace is exportable; the bundle names the first policy, and replays in exactly
      the audit order. */
  lemma ExportKeepsAuditOrder(k: Kernel, boot: Policy, ws: Workspace)
    requires Sound(k, boot, ws)
    ensures |ws.stored| == |Persisted(ws.audit)| && ws.active.Some?
    ensures Export(k, ws) == Ok(Bundled(k, ws, Log(k, ws)))
    ensures Bundled(k, ws, Log(k, ws)).bootstrap == boot && boot in ws.policies
    ensures Bundled(k, ws, Log(k, ws)).policies == ws.policies
    ensures InOrder(Bundled(k, ws, Log(k, ws))) == Log(k, ws)
    ensures forall i :: 0 <= i < |ws.stored| ==> Log(k, ws)[i].governing in ws.policies
  {
    SoundIsExportable(k, boot, ws);
    SortingRoundTrips(Log(k, ws));
    ActiveRegistered(boot, ws.accepted);
    var persisted := Persisted(ws.audit);
    if persisted != [] {
      assert Governed(k, boot, AcceptedOf(persisted[..0]), persisted[0]);
      assert persisted[..0] == [];
    }
    forall i | 0 <= i < |ws.stored|
      ensures Log(k, ws)[i].governing in ws.policies
    {
      assert Governed(k, boot, AcceptedOf(persisted[..i]), persisted[i]);
      ActiveRegistered(boot, AcceptedOf(persisted[..i]));
      EarlierPolicies(boot, persisted, i);
    }
  }

  lemma {:induction false} EarlierPolicies(boot: Policy, persisted: seq<Event>, i: nat)
    requires i <= |persisted|
    ensures PoliciesAfter(boot, AcceptedOf(persisted[..i])) <= PoliciesAfter(boot, AcceptedOf(persisted))
    decreases |persisted| - i
  {
    if i == |persisted| {
      assert persisted[..i] == persisted;
    } else {
      EarlierPolicies(boot, persisted, i + 1);
      assert persisted[..i + 1] == persisted[..i] + [persisted[i]];
      AcceptedSnoc(persisted[..i], persisted[i]);
      if persisted[i].payload.decision.accepted {
        PolicySnoc(boot, AcceptedOf(persisted[..i]), Accepted(persisted[i].payload.proposal, persisted[i].occurredAt));
      } else {
        assert AcceptedOf(persisted[..i]) + [] == AcceptedOf(persisted[..i]);
      }
    }
  }

  // ---- a retained record replays ----

  lemma {:induction false} PersistedIndex(audit: seq<Event>, i: nat) returns (j: nat)
    requires i < |Persisted(audit)|
    ensures i <= j < |audit| && audit[j] == Persisted(audit)[i] && audit[j].payload.persisted
    ensures Persisted(audit[..j]) == Persisted(audit)[..i]
  {
    var n := |audit| - 1;
    var front := audit[..n];
    assert audit == front + [audit[n]];
    PersistedSnoc(front, audit[n]);
    if i < |Persisted(front)| {
      j := PersistedIndex(front, i);
      assert front[..j] == audit[..j];
    } else {
      j := n;
      PersistedLength(front);
    }
  }

  lemma {:induction false} PersistedLength(audit: seq<Event>)
    ensures |Persisted(audit)| <= |audit|
  {
    if audit != [] {
      PersistedLength(audit[1..]);
    }
  }

  lemma ChainSequences(k: Kernel, audit: seq<Event>)
    requires Chained(k, audit)
    ensures forall j :: 0 <= j < |audit| ==> audit[j].sequence == j + 1
  {}

  /** The audit holds exactly one event for a retained record. */
  lemma OneEventMatches(k: Kernel, boot: Policy, ws: Workspace, i: nat)
    requires Lawful(k) && Sound(k, boot, ws) && i < |ws.stored|
    ensures |ws.stored| == |Persisted(ws.audit)|
    ensures |Filter(Matching(ws.stored[i].proposal, RecordAt(k, ws, i)), ws.audit)| == 1
  {
    var r := RecordAt(k, ws, i);
    var j := PersistedIndex(ws.audit, i);
    ChainSequences(k, ws.audit);
    StoredNeverConflicts(k, boot, ws, i);
    assert OnlyAt(Matching(ws.stored[i].proposal, r), ws.audit, j);
    FilterSingleton(Matching(ws.stored[i].proposal, r), ws.audit);
  }

  lemma RetainedRecordReplays(k: Kernel, boot: Policy, ws: Workspace, i: nat, at: Time)
    requires Lawful(k) && Sound(k, boot, ws) && i < |ws.stored|
    ensures |ws.stored| == |Persisted(ws.audit)|
    ensures SubmitIntent(k, ws, RecordAt(k, ws, i).governing, RecordAt(k, ws, i), at)
         == Ok((ws, ws.stored[i].decision.(replayed := true)))
    ensures ByKey(ws.stored, RecordAt(k, ws, i).proposal.key) == Some(ws.stored[i])
  {
    ByKeyAt(ws.stored, i);
    StoredNeverConflicts(k, boot, ws, i);
    OneEventMatches(k, boot, ws, i);
    assert Replays(k, ws, ws.stored[i], RecordAt(k, ws, i));
  }

  lemma RetainedRecordCounts(k: Kernel, boot: Policy, ws: Workspace, policies: set<Policy>, tally: Tally, i: nat, at: Time)
    requires Lawful(k) && Sound(k, boot, ws) && i < |ws.stored|
    requires |ws.stored| == |Persisted(ws.audit)| && RecordAt(k, ws, i).governing in policies
    ensures ImportRecord(k, policies, ws, tally, RecordAt(k, ws, i), at) == Ok((ws, tally.(replayed := tally.replayed + 1)))
  {
    RetainedRecordReplays(k, boot, ws, i, at);
    StoredNeverConflicts(k, boot, ws, i);
    ReplayCounts(k, tally, ws.stored[i], RecordAt(k, ws, i));
  }

  lemma ReplayCounts(k: Kernel, tally: Tally, t: Stored, r: Record)
    requires r.expected == t.decision && !t.decision.replayed
    ensures Count(k, tally, Some(t), r, t.decision.(replayed := true)) == Ok(tally.(replayed := tally.replayed + 1))
  {}

  lemma RetainedLogReplays(k: Kernel, boot: Policy, ws: Workspace, policies: set<Policy>, n: nat, clock: Clock)
    requires Lawful(k) && Sound(k, boot, ws) && n <= |ws.stored|
    requires |ws.stored| == |Persisted(ws.audit)|
    requires forall i :: 0 <= i < n ==> Log(k, ws)[i].governing in policies
    ensures ImportAll(k, policies, ws, Log(k, ws)[..n], clock) == Ok((ws, Tally(0, n, [])))
  {
    hide Sound, ImportRecord;
    var states := seq(n + 1, i requires 0 <= i <= n => (ws, Tally(0, i, [])));
    var step, log := ImportStep(k, policies, clock), Log(k, ws)[..n];
    forall i | 0 <= i < n
      ensures step(states[i], log[i]) == Ok(states[i + 1])
    {
      assert Log(k, ws)[i] == RecordAt(k, ws, i);
      RetainedRecordCounts(k, boot, ws, policies, Tally(0, i, []), i, clock(i));
    }
    FoldChain(step, (ws, ZERO), log, states, 0);
  }

  /** What a commit does, given what preparing, replaying and exporting return. */
  lemma CommitIs(k: Kernel, b: Bundle, ws: Workspace, start: Workspace, after: Workspace, tally: Tally, clock: Clock)
    requires Prepare(b, ws) == Ok(start)
    requires ImportAll(k, b.policies, start, InOrder(b), clock) == Ok((after, tally))
    ensures Commit(k, b, ws, clock) == Concluded(b, after, tally, Export(k, after))
  {}

  /** A commit whose rebuilt export is the bundle itself. */
  lemma CommitRebuilds(k: Kernel, b: Bundle, ws: Workspace, start: Workspace, after: Workspace, tally: Tally, clock: Clock)
    requires Prepare(b, ws) == Ok(start)
    requires ImportAll(k, b.policies, start, InOrder(b), clock) == Ok((after, tally))
    requires tally.conflicts == [] && Export(k, after) == Ok(b)
    ensures Commit(k, b, ws, clock) == Ok((after, Import(tally, true)))
  {}

  lemma OwnBundlePrepares(k: Kernel, boot: Policy, ws: Workspace)
    requires Sound(k, boot, ws)
    ensures |ws.stored| == |Persisted(ws.audit)| && ws.active.Some?
    ensures Prepare(Bundled(k, ws, Log(k, ws)), ws) == Ok(ws)
    ensures Log(k, ws)[..|ws.stored|] == Log(k, ws)
  {
    hide Chained, AllGoverned, DistinctKeys;
    ExportKeepsAuditOrder(k, boot, ws);
  }

  /** Importing a workspace's own export replays every record and changes nothing. */
  lemma ReimportChangesNothing(k: Kernel, boot: Policy, ws: Workspace, clock: Clock)
    requires Lawful(k) && Sound(k, boot, ws)
    ensures Export(k, ws).Ok?
    ensures Commit(k, Export(k, ws).value, ws, clock) == Ok((ws, Import(Tally(0, |ws.stored|, []), true)))
  {
    hide *;
    ExportKeepsAuditOrder(k, boot, ws);
    OwnBundlePrepares(k, boot, ws);
    RetainedLogReplays(k, boot, ws, ws.policies, |ws.stored|, clock);
    CommitRebuilds(k, Bundled(k, ws, Log(k, ws)), ws, ws, ws, Tally(0, |ws.stored|, []), clock);
  }
}
