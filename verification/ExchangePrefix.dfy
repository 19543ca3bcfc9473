/** A conflict-free import of any bundle: what the target must already have held. */
module ExchangePrefix {
  import opened Common
  import opened Ordering
  import opened WorkspaceExchange
  import opened ExchangeProofs

  // ---- one submission ----

  /** The answer of a submission to a sound workspace: a replay, an audited refusal, or a newly
      recorded transaction. */
  ghost predicate Outcome(k: Kernel, ws: Workspace, r: Record, after: Workspace, d: Decision, at: Time)
    requires ws.active.Some?
  {
    || (d.replayed && after == ws && ByKey(ws.stored, r.proposal.key).Some?)
    || (!d.replayed && Refused(ws, after, at)
        && (ByKey(ws.stored, r.proposal.key).Some? ==> KeyReused(d)))
    || (!d.replayed && ByKey(ws.stored, r.proposal.key).None?
        && after == Recorded(k, ws, r.governing, r.proposal, d, FingerprintOf(k, r), at))
  }

  predicate KeyReused(d: Decision)
  {
    d.reasons != [] && OwnMessage(d.reasons[0].message) && d == Rejection(d.proposalId, IdempotencyConflict, d.reasons[0].message)
  }

  ghost predicate Refused(ws: Workspace, after: Workspace, at: Time)
  {
    && after == ws.(audit := after.audit) && |after.audit| == |ws.audit| + 1
    && after.audit[..|ws.audit|] == ws.audit
    && after.audit[|ws.audit|].occurredAt == at && !after.audit[|ws.audit|].payload.persisted
  }

  lemma AuditedRefuses(k: Kernel, ws: Workspace, configured: Policy, p: Proposal, d: Decision, fingerprint: Option<Digest>, at: Time)
    requires ws.active.Some? && ByKey(ws.stored, p.key) != Some(Stored(p, d, fingerprint))
    ensures Refused(ws, Audited(k, ws, configured, p, d, fingerprint, at), at)
  {}

  lemma ConflictRefuses(k: Kernel, boot: Policy, ws: Workspace, configured: Policy, p: Proposal, fingerprint: Option<Digest>, message: string, id: Id, at: Time)
    requires Lawful(k) && Sound(k, boot, ws) && OwnMessage(message)
    ensures Refused(ws, Audited(k, ws, configured, p, Rejection(id, IdempotencyConflict, message), fingerprint, at), at)
  {
    var d := Rejection(id, IdempotencyConflict, message);
    ByKeyMeans(ws.stored, p.key);
    assert ByKey(ws.stored, p.key) != Some(Stored(p, d, fingerprint)) by {
      if ByKey(ws.stored, p.key).Some? {
        var i :| 0 <= i < |ws.stored| && ws.stored[i] == ByKey(ws.stored, p.key).value;
        StoredNeverConflicts(k, boot, ws, i);
      }
    }
    AuditedRefuses(k, ws, configured, p, d, fingerprint, at);
  }

  lemma UnknownKeyOutcome(k: Kernel, ws: Workspace, r: Record, at: Time)
    requires Lawful(k) && ws.active.Some? && ByKey(ws.stored, r.proposal.key).None?
    ensures
      var (after, d) := SubmitLocked(k, ws, r.governing, r.proposal, FingerprintOf(k, r), at);
      Outcome(k, ws, r, after, d, at)
  {
    var fingerprint := FingerprintOf(k, r);
    var (after, d) := SubmitLocked(k, ws, r.governing, r.proposal, fingerprint, at);
    if ById(ws.stored, r.proposal.id).Some? {
      AuditedRefuses(k, ws, r.governing, r.proposal, d, fingerprint, at);
    }
  }

  lemma SubmissionOutcome(k: Kernel, boot: Policy, ws: Workspace, r: Record, at: Time)
    requires Lawful(k) && Sound(k, boot, ws)
    ensures
      var submitted := SubmitIntent(k, ws, r.governing, r, at);
      submitted.Ok? ==> Outcome(k, ws, r, submitted.value.0, submitted.value.1, at)
  {
    if ByKey(ws.stored, r.proposal.key).Some? {
      ConflictRefuses(k, boot, ws, r.governing, Invalid(r.id, r.proposal.key, REUSED_ATTEMPT), FingerprintOf(k, r), REUSED_ATTEMPT, r.id, at);
    } else {
      UnknownKeyOutcome(k, ws, r, at);
    }
  }

  // ---- a run of records ----

  /** What any replay of records does to a workspace: both logs only grow, by what was counted. */
  ghost predicate Grown(start: Workspace, after: Workspace, n: nat, tally: Tally, clock: Clock)
  {
    && tally.imported + tally.replayed + |tally.conflicts| == n
    && start.audit <= after.audit && start.stored <= after.stored
    && |after.audit| == |start.audit| + tally.imported + |tally.conflicts|
    && |after.stored| <= |start.stored| + tally.imported + |tally.conflicts|
    && forall j :: |start.audit| <= j < |after.audit| ==> Read(clock, after.audit[j].occurredAt)
  }

  /** The time is one of the clock's readings. */
  ghost predicate Read(clock: Clock, t: Time)
  {
    exists i: nat :: clock(i) == t
  }

  ghost predicate GrewByOne(ws: Workspace, after: Workspace, d: Decision, at: Time)
  {
    && ws.audit <= after.audit && ws.stored <= after.stored && |after.stored| <= |ws.stored| + 1
    && |after.audit| == |ws.audit| + (if d.replayed then 0 else 1)
    && (!d.replayed ==> after.audit[|ws.audit|].occurredAt == at)
    && (d.replayed ==> after.stored == ws.stored)
  }

  lemma OutcomeGrows(k: Kernel, ws: Workspace, r: Record, after: Workspace, d: Decision, at: Time)
    requires ws.active.Some? && Outcome(k, ws, r, after, d, at)
    ensures GrewByOne(ws, after, d, at)
  {}

  predicate Counted(tally: Tally, r: Record, d: Decision, next: Tally)
  {
    if d.replayed then next == tally.(replayed := tally.replayed + 1) && d.(replayed := false) == r.expected
    else if d == r.expected then next == tally.(imported := tally.imported + 1)
    else
      && ConflictCode(d).Some?
      && next == tally.(conflicts := tally.conflicts + [Conflict(r.id, ConflictCode(d).value)])
  }

  lemma TalliedCounts(k: Kernel, tally: Tally, prior: Option<Stored>, r: Record, submitted: Result<(Workspace, Decision)>)
    ensures
      var result := Tallied(k, tally, prior, r, submitted);
      result.Ok? ==>
        submitted.Ok? && result.value.0 == submitted.value.0 && Counted(tally, r, submitted.value.1, result.value.1)
  {}

  lemma {:induction false} ImportGrows(k: Kernel, boot: Policy, policies: set<Policy>, start: Workspace, records: seq<Record>, clock: Clock)
    requires Lawful(k) && Sound(k, boot, start)
    ensures
      var result := ImportAll(k, policies, start, records, clock);
      result.Ok? ==> Sound(k, boot, result.value.0) && Grown(start, result.value.0, |records|, result.value.1, clock)
  {
    hide Sound, Lawful, ImportRecord, Grown;
    if records == [] {
      NothingGrown(start, clock);
    } else {
      var front, r := records[..|records| - 1], records[|records| - 1];
      ImportGrows(k, boot, policies, start, front, clock);
      var earlier := ImportAll(k, policies, start, front, clock);
      if earlier.Ok? {
        StepGrows(k, boot, policies, start, earlier.value.0, |front|, earlier.value.1, r, clock);
      }
    }
  }

  lemma NothingGrown(start: Workspace, clock: Clock)
    ensures Grown(start, start, 0, ZERO, clock)
  {}

  lemma StepGrows(k: Kernel, boot: Policy, policies: set<Policy>, start: Workspace, ws: Workspace, n: nat, tally: Tally, r: Record, clock: Clock)
    requires Lawful(k) && Sound(k, boot, ws) && Grown(start, ws, n, tally, clock)
    ensures
      var result := ImportRecord(k, policies, ws, tally, r, clock(r.order));
      result.Ok? ==> Sound(k, boot, result.value.0) && Grown(start, result.value.0, n + 1, result.value.1, clock)
  {
    var result := ImportRecord(k, policies, ws, tally, r, clock(r.order));
    if result.Ok? {
      var d := StepOf(k, boot, policies, ws, tally, r, clock(r.order), result.value.0, result.value.1);
      GrownStep(start, ws, n, tally, r, result.value.0, d, result.value.1, clock);
    }
  }

  /** One round of the replay loop, as the answer it got. */
  lemma StepOf(k: Kernel, boot: Policy, policies: set<Policy>, ws: Workspace, tally: Tally, r: Record, at: Time, after: Workspace, next: Tally)
    returns (d: Decision)
    requires Lawful(k) && Sound(k, boot, ws) && ImportRecord(k, policies, ws, tally, r, at) == Ok((after, next))
    ensures Sound(k, boot, after) && Outcome(k, ws, r, after, d, at) && GrewByOne(ws, after, d, at) && Counted(tally, r, d, next)
  {
    var submitted := SubmitIntent(k, ws, r.governing, r, at);
    SubmitIntentKeepsSound(k, boot, ws, r.governing, r, at);
    SubmissionOutcome(k, boot, ws, r, at);
    TalliedCounts(k, tally, ByKey(ws.stored, r.proposal.key), r, submitted);
    d := submitted.value.1;
    OutcomeGrows(k, ws, r, after, d, at);
  }

  lemma GrownStep(start: Workspace, ws: Workspace, n: nat, tally: Tally, r: Record, after: Workspace, d: Decision, next: Tally, clock: Clock)
    requires Grown(start, ws, n, tally, clock) && GrewByOne(ws, after, d, clock(r.order)) && Counted(tally, r, d, next)
    ensures Grown(start, after, n + 1, next, clock)
  {}

  lemma {:induction false} ConflictFreePrefix(k: Kernel, policies: set<Policy>, start: Workspace, records: seq<Record>, i: nat, clock: Clock)
    requires i <= |records|
    requires ImportAll(k, policies, start, records, clock).Ok? && ImportAll(k, policies, start, records, clock).value.1.conflicts == []
    ensures ImportAll(k, policies, start, records[..i], clock).Ok?
    ensures ImportAll(k, policies, start, records[..i], clock).value.1.conflicts == []
  {
    if i == |records| {
      assert records[..i] == records;
    } else {
      var n := |records| - 1;
      var earlier := ImportAll(k, policies, start, records[..n], clock);
      StepConflicts(k, policies, earlier.value.0, earlier.value.1, records[n], clock(records[n].order));
      ConflictFreePrefix(k, policies, start, records[..n], i, clock);
      assert records[..n][..i] == records[..i];
    }
  }

  lemma StepConflicts(k: Kernel, policies: set<Policy>, ws: Workspace, tally: Tally, r: Record, at: Time)
    requires ImportRecord(k, policies, ws, tally, r, at).Ok? && ImportRecord(k, policies, ws, tally, r, at).value.1.conflicts == []
    ensures tally.conflicts == []
  {}

  // ---- the target's own log comes first ----

  lemma OwnRecordReplays(k: Kernel, boot: Policy, policies: set<Policy>, ws: Workspace, tally: Tally, i: nat, r: Record, at: Time, after: Workspace, next: Tally)
    requires Lawful(k) && Sound(k, boot, ws) && i < |ws.stored|
    requires r.proposal == ws.stored[i].proposal && r.expected == ws.stored[i].decision
    requires ImportRecord(k, policies, ws, tally, r, at) == Ok((after, next)) && next.conflicts == []
    ensures after == ws && next == tally.(replayed := tally.replayed + 1)
  {
    var d := StepOf(k, boot, policies, ws, tally, r, at, after, next);
    ByKeyAt(ws.stored, i);
    StoredNeverConflicts(k, boot, ws, i);
  }

  lemma ImportLast(k: Kernel, policies: set<Policy>, start: Workspace, records: seq<Record>, clock: Clock, ws: Workspace, tally: Tally)
    requires records != [] && ImportAll(k, policies, start, records[..|records| - 1], clock) == Ok((ws, tally))
    ensures ImportAll(k, policies, start, records, clock) == ImportRecord(k, policies, ws, tally, records[|records| - 1], clock(records[|records| - 1].order))
  {}

  lemma {:induction false} OwnLogReplays(k: Kernel, boot: Policy, policies: set<Policy>, ws: Workspace, records: seq<Record>, clock: Clock, after: Workspace, tally: Tally)
    requires Lawful(k) && Sound(k, boot, ws) && |records| <= |ws.stored|
    requires forall i :: 0 <= i < |records| ==> records[i].proposal == ws.stored[i].proposal && records[i].expected == ws.stored[i].decision
    requires ImportAll(k, policies, ws, records, clock) == Ok((after, tally)) && tally.conflicts == []
    ensures after == ws && tally == Tally(0, |records|, [])
  {
    hide Sound, Lawful, ImportRecord;
    if records != [] {
      var n := |records| - 1;
      ConflictFreePrefix(k, policies, ws, records, n, clock);
      var (ws', earlier) := ImportAll(k, policies, ws, records[..n], clock).value;
      OwnLogReplays(k, boot, policies, ws, records[..n], clock, ws', earlier);
      ImportLast(k, policies, ws, records, clock, ws, earlier);
      OwnRecordReplays(k, boot, policies, ws, earlier, n, records[n], clock(records[n].order), after, tally);
    }
  }

  lemma {:induction false} ReplayedGrows(k: Kernel, policies: set<Policy>, ws: Workspace, records: seq<Record>, m: nat, clock: Clock)
    requires m <= |records| && ImportAll(k, policies, ws, records, clock).Ok?
    ensures ImportAll(k, policies, ws, records[..m], clock).Ok?
    ensures ImportAll(k, policies, ws, records[..m], clock).value.1.replayed <= ImportAll(k, policies, ws, records, clock).value.1.replayed
  {
    if m == |records| {
      assert records[..m] == records;
    } else {
      var n := |records| - 1;
      var earlier, r := ImportAll(k, policies, ws, records[..n], clock), records[n];
      TalliedCounts(k, earlier.value.1, ByKey(earlier.value.0.stored, r.proposal.key), r, SubmitIntent(k, earlier.value.0, r.governing, r, clock(r.order)));
      ReplayedGrows(k, policies, ws, records[..n], m, clock);
      assert records[..n][..m] == records[..m];
    }
  }

  // ---- a matching rebuild, in replay order ----

  lemma {:induction false} AtLeastIndex(orders: seq<nat>, i: nat)
    requires i < |orders| && forall a, b :: 0 <= a < b < |orders| ==> orders[a] < orders[b]
    ensures orders[i] >= i
  {
    if i > 0 {
      AtLeastIndex(orders, i - 1);
    }
  }

  lemma {:induction false} AtMostIndex(orders: seq<nat>, i: nat)
    requires i < |orders| && forall a, b :: 0 <= a < b < |orders| ==> orders[a] < orders[b]
    requires forall a :: 0 <= a < |orders| ==> orders[a] < |orders|
    ensures orders[i] <= i
    decreases |orders| - i
  {
    if i + 1 < |orders| {
      AtMostIndex(orders, i + 1);
    }
  }

  lemma OrderedDistinct(b: Bundle)
    requires Distinct(b.records)
    ensures |InOrder(b)| == |b.records| && Distinct(InOrder(b))
    ensures forall i :: 0 <= i < |b.records| ==> InOrder(b)[i] in b.records
    ensures Ascends(OrderLeq, InOrder(b))
  {
    var ordered := InOrder(b);
    OrderIsOrdered();
    SortAscends(OrderLeq, b.records);
    assert |multiset(ordered)| == |multiset(b.records)|;
    DistinctMultiset(b.records);
    forall i | 0 <= i < |ordered|
      ensures ordered[i] in b.records
    {
      assert ordered[i] in multiset(ordered);
    }
    forall i, j | 0 <= i < j < |ordered|
      ensures ordered[i] != ordered[j]
    {
      if ordered[i] == ordered[j] {
        CountedTwice(ordered, i, j);
      }
    }
  }

  /** In replay order, the i-th record of a canonical bundle has order i. */
  lemma InOrderAt(k: Kernel, b: Bundle)
    requires Canonical(k, b)
    ensures |InOrder(b)| == |b.records|
    ensures forall i :: 0 <= i < |b.records| ==> InOrder(b)[i] in b.records && InOrder(b)[i].order == i
  {
    var ordered := InOrder(b);
    OrderedDistinct(b);
    var orders := seq(|ordered|, i requires 0 <= i < |ordered| => ordered[i].order);
    forall i, j | 0 <= i < j < |ordered|
      ensures orders[i] < orders[j]
    {
      assert OrderLeq(ordered[i], ordered[j]);
    }
    forall i | 0 <= i < |ordered|
      ensures ordered[i].order == i
    {
      AtLeastIndex(orders, i);
      AtMostIndex(orders, i);
      assert orders[i] == ordered[i].order;
    }
  }

  lemma BundleRecordsMatch(b: Bundle, rebuilt: Bundle)
    requires BundleMatches(b, rebuilt)
    ensures |b.records| == |rebuilt.records| && b.bootstrap == rebuilt.bootstrap
    ensures forall j :: 0 <= j < |b.records| ==> RecordMatches(b.records[j], rebuilt.records[j])
  {}

  /** Matching index by index in the bundle is matching position by position in the log. */
  lemma MatchedInOrder(k: Kernel, b: Bundle, log: seq<Record>)
    requires Canonical(k, b) && |b.records| == |Sort(RecordLeq, log)|
    requires forall j :: 0 <= j < |b.records| ==> RecordMatches(b.records[j], Sort(RecordLeq, log)[j])
    requires forall x :: 0 <= x < |log| ==> log[x].order == x
    ensures |InOrder(b)| == |log| == |b.records|
    ensures forall i :: 0 <= i < |log| ==> RecordMatches(InOrder(b)[i], log[i])
  {
    var rebuilt := Sort(RecordLeq, log);
    RecordsAreOrdered();
    SortAscends(RecordLeq, log);
    assert |multiset(rebuilt)| == |multiset(log)|;
    InOrderAt(k, b);
    forall i | 0 <= i < |log|
      ensures RecordMatches(InOrder(b)[i], log[i])
    {
      var j :| 0 <= j < |b.records| && b.records[j] == InOrder(b)[i];
      assert rebuilt[j] in multiset(rebuilt);
      var x :| 0 <= x < |log| && log[x] == rebuilt[j];
      assert x == i;
    }
  }

  lemma LogPrefix(k: Kernel, target: Workspace, after: Workspace)
    requires |target.stored| == |Persisted(target.audit)| && |after.stored| == |Persisted(after.audit)|
    requires target.audit <= after.audit && target.stored <= after.stored
    ensures Log(k, target) <= Log(k, after)
  {
    PersistedPrefix(after.audit, |target.audit|);
    assert after.audit[..|target.audit|] == target.audit;
    forall i | 0 <= i < |target.stored|
      ensures RecordAt(k, target, i) == RecordAt(k, after, i)
    {
      assert Persisted(after.audit)[i] == Persisted(target.audit)[i];
    }
  }

  /** What a verified commit was made of. */
  lemma CommitParts(k: Kernel, boot: Policy, b: Bundle, target: Workspace, clock: Clock, after: Workspace, result: Import)
    requires Lawful(k) && Sound(k, boot, target)
    requires Commit(k, b, target, clock) == Ok((after, result)) && result.verified
    ensures Prepare(b, target) == Ok(target)
    ensures ImportAll(k, b.policies, target, InOrder(b), clock) == Ok((after, result.tally)) && result.tally.conflicts == []
    ensures Sound(k, boot, after) && Grown(target, after, |InOrder(b)|, result.tally, clock)
    ensures Concluded(b, after, result.tally, Export(k, after)) == Ok((after, result))
  {
    var replayed := ImportAll(k, b.policies, target, InOrder(b), clock);
    ImportGrows(k, boot, b.policies, target, InOrder(b), clock);
    CommitIs(k, b, target, target, replayed.value.0, replayed.value.1, clock);
  }

  lemma LogShape(k: Kernel, ws: Workspace)
    requires |ws.stored| == |Persisted(ws.audit)|
    ensures |Log(k, ws)| == |ws.stored| && forall i :: 0 <= i < |ws.stored| ==> Log(k, ws)[i].order == i
  {}

  lemma ConcludedMatches(k: Kernel, boot: Policy, b: Bundle, after: Workspace, result: Import)
    requires Canonical(k, b) && Sound(k, boot, after) && result.tally.conflicts == []
    requires Concluded(b, after, result.tally, Export(k, after)) == Ok((after, result))
    ensures |after.stored| == |Persisted(after.audit)| && b.bootstrap == boot
    ensures |InOrder(b)| == |after.stored| == |b.records|
    ensures forall i :: 0 <= i < |after.stored| ==> RecordMatches(InOrder(b)[i], Log(k, after)[i])
  {
    hide Sound, Canonical, Export, Log, InOrder, BundleMatches;
    ExportKeepsAuditOrder(k, boot, after);
    LogShape(k, after);
    BundleRecordsMatch(b, Bundled(k, after, Log(k, after)));
    MatchedInOrder(k, b, Log(k, after));
  }

  lemma MatchingAnswers(k: Kernel, boot: Policy, ws: Workspace, records: seq<Record>)
    requires Lawful(k) && Sound(k, boot, ws) && |ws.stored| == |Persisted(ws.audit)| <= |records|
    requires forall i :: 0 <= i < |ws.stored| ==> RecordMatches(records[i], Log(k, ws)[i])
    ensures forall i :: 0 <= i < |ws.stored| ==> records[i].proposal == ws.stored[i].proposal && records[i].expected == ws.stored[i].decision
  {
    forall i | 0 <= i < |ws.stored|
      ensures records[i].proposal == ws.stored[i].proposal && records[i].expected == ws.stored[i].decision
    {
      StoredNeverConflicts(k, boot, ws, i);
      assert RecordMatches(records[i], RecordAt(k, ws, i));
    }
  }

  /** A replay that ends with as many transactions as it had records, and met its start's own log
      first, replayed exactly that log. */
  lemma ExactTally(k: Kernel, boot: Policy, policies: set<Policy>, target: Workspace, records: seq<Record>, clock: Clock, after: Workspace, tally: Tally)
    requires Lawful(k) && Sound(k, boot, target) && |target.stored| <= |records| == |after.stored|
    requires forall i :: 0 <= i < |target.stored| ==> records[i].proposal == target.stored[i].proposal && records[i].expected == target.stored[i].decision
    requires ImportAll(k, policies, target, records, clock) == Ok((after, tally)) && tally.conflicts == []
    requires Grown(target, after, |records|, tally, clock)
    ensures tally == Tally(|records| - |target.stored|, |target.stored|, [])
  {
    hide Sound, Lawful, ImportAll;
    var m := |target.stored|;
    ConflictFreePrefix(k, policies, target, records, m, clock);
    var (ws, early) := ImportAll(k, policies, target, records[..m], clock).value;
    OwnLogReplays(k, boot, policies, target, records[..m], clock, ws, early);
    ReplayedGrows(k, policies, target, records, m, clock);
  }

  /** A verified import of any canonical bundle replays exactly the target's whole log and
      imports exactly the rest: the target's log is an initial segment of the bundle's. */
  lemma VerifiedImportExtendsTarget(k: Kernel, boot: Policy, b: Bundle, target: Workspace, clock: Clock, after: Workspace, result: Import)
    requires Lawful(k) && Canonical(k, b) && Sound(k, boot, target)
    requires Commit(k, b, target, clock) == Ok((after, result)) && result.verified
    ensures |target.stored| <= |b.records| == |after.stored| == |InOrder(b)| && b.bootstrap == boot
    ensures result.tally == Tally(|b.records| - |target.stored|, |target.stored|, [])
    ensures |target.stored| == |Persisted(target.audit)| && |after.stored| == |Persisted(after.audit)|
    ensures forall i :: 0 <= i < |target.stored| ==> RecordMatches(InOrder(b)[i], Log(k, target)[i])
    ensures forall i :: 0 <= i < |after.stored| ==> RecordMatches(InOrder(b)[i], Log(k, after)[i])
    ensures Sound(k, boot, after) && Grown(target, after, |b.records|, result.tally, clock)
  {
    hide Sound, Commit, Concluded, Canonical;
    CommitParts(k, boot, b, target, clock, after, result);
    ConcludedMatches(k, boot, b, after, result);
    SoundIsExportable(k, boot, target);
    LogPrefix(k, target, after);
    MatchingAnswers(k, boot, target, InOrder(b));
    ExactTally(k, boot, b.policies, target, InOrder(b), clock, after, result.tally);
  }
}
