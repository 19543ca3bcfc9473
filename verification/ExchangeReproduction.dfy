/** Exactly which logs an import reproduces, and into which targets. */
module ExchangeReproduction {
  import opened Common
  import opened Ordering
  import opened WorkspaceExchange
  import opened ExchangeProofs
  import opened ExchangePrefix

  /** The workspace a log determines. */
  function Of(boot: Policy, audit: seq<Event>): Workspace
  {
    var accepted := AcceptedOf(Persisted(audit));
    Workspace(PoliciesAfter(boot, accepted), Some(ActiveAfter(boot, accepted)), StoredOf(Persisted(audit)), audit, accepted)
  }

  /** The persisted events come first. */
  predicate Leads(ws: Workspace)
  {
    var n := |Persisted(ws.audit)|;
    n <= |ws.audit| && LeadsUpTo(ws.audit, n)
  }

  predicate LeadsUpTo(audit: seq<Event>, n: nat)
    requires n <= |audit|
  {
    forall i :: 0 <= i < n ==> audit[i].payload.persisted
  }

  /** The persisted events come first, and each from the m-th on was recorded at the clock's own
      reading by a coordinator configured with the policy that was active. */
  predicate CleanFrom(ws: Workspace, m: nat, clock: Clock)
  {
    Leads(ws) && forall i :: m <= i < |Persisted(ws.audit)| ==> CleanEvent(ws.audit[i], clock(i))
  }

  predicate Clean(ws: Workspace, clock: Clock)
  {
    CleanFrom(ws, 0, clock)
  }

  predicate CleanEvent(e: Event, at: Time)
  {
    e.payload.persisted && e.occurredAt == at && e.payload.configured == Some(e.payload.policyHash)
  }

  lemma {:induction false} PersistedAll(audit: seq<Event>)
    requires forall i :: 0 <= i < |audit| ==> audit[i].payload.persisted
    ensures Persisted(audit) == audit
  {
    if audit != [] {
      PersistedAll(audit[1..]);
    }
  }

  lemma {:induction false} AllPersisted(audit: seq<Event>)
    requires |Persisted(audit)| == |audit|
    ensures Persisted(audit) == audit
  {
    if audit != [] {
      PersistedLength(audit[1..]);
      AllPersisted(audit[1..]);
    }
  }

  /** Such a log starts with all of its persisted events. */
  lemma PersistedStart(audit: seq<Event>, n: nat)
    requires n == |Persisted(audit)| <= |audit| && LeadsUpTo(audit, n)
    ensures Persisted(audit) == audit[..n]
    ensures forall i :: 0 <= i <= n ==> Persisted(audit[..i]) == audit[..i]
  {
    forall i | 0 <= i <= n
      ensures Persisted(audit[..i]) == audit[..i]
    {
      PersistedAll(audit[..i]);
    }
    PersistedPrefix(audit, n);
  }

  // ---- every prefix of a sound log is sound ----

  lemma ChainPrefix(k: Kernel, audit: seq<Event>, n: nat)
    requires Chained(k, audit) && n <= |audit|
    ensures Chained(k, audit[..n])
  {}

  lemma GovernedPrefix(k: Kernel, boot: Policy, persisted: seq<Event>, n: nat)
    requires AllGoverned(k, boot, persisted) && n <= |persisted|
    ensures AllGoverned(k, boot, persisted[..n])
  {
    forall i | 0 <= i < n
      ensures Governed(k, boot, AcceptedOf(persisted[..n][..i]), persisted[..n][i])
    {
      assert persisted[..n][..i] == persisted[..i];
    }
  }

  lemma DistinctPrefix(stored: seq<Stored>, n: nat)
    requires DistinctKeys(stored) && n <= |stored|
    ensures DistinctKeys(stored[..n])
  {}

  lemma PrefixIsSound(k: Kernel, boot: Policy, ws: Workspace, n: nat)
    requires Sound(k, boot, ws) && n <= |ws.audit|
    ensures Sound(k, boot, Of(boot, ws.audit[..n])) && Of(boot, ws.audit[..n]).stored <= ws.stored
  {
    hide Chained, AllGoverned, DistinctKeys, Persisted, PoliciesAfter, ActiveAfter, AcceptedOf;
    ChainPrefix(k, ws.audit, n);
    PersistedPrefix(ws.audit, n);
    var all, some := Persisted(ws.audit), Persisted(ws.audit[..n]);
    assert some == all[..|some|];
    GovernedPrefix(k, boot, all, |some|);
    assert StoredOf(some) == ws.stored[..|some|];
    DistinctPrefix(ws.stored, |some|);
  }

  lemma SoundIsOf(k: Kernel, boot: Policy, ws: Workspace)
    requires Sound(k, boot, ws)
    ensures ws == Of(boot, ws.audit)
  {}

  // ---- a clean log is reproduced ----

  lemma UnknownBefore(stored: seq<Stored>, i: nat)
    requires DistinctKeys(stored) && i < |stored|
    ensures ByKey(stored[..i], stored[i].proposal.key).None? && ById(stored[..i], stored[i].proposal.id).None?
  {
    ByKeyMeans(stored[..i], stored[i].proposal.key);
    ByIdMeans(stored[..i], stored[i].proposal.id);
  }

  lemma StoredPrefix(persisted: seq<Event>, i: nat)
    requires i < |persisted|
    ensures StoredOf(persisted[..i]) == StoredOf(persisted)[..i]
  {}

  /** What is known of an event of the persisted prefix. */
  lemma CleanEventFacts(k: Kernel, boot: Policy, audit: seq<Event>, i: nat, at: Time)
    requires |Persisted(audit)| <= |audit| && LeadsUpTo(audit, |Persisted(audit)|) && i < |Persisted(audit)| && audit[i].occurredAt == at
    requires Chained(k, audit) && AllGoverned(k, boot, Persisted(audit))
    ensures Persisted(audit)[i] == audit[i] && Persisted(audit[..i]) == audit[..i]
    ensures Governed(k, boot, AcceptedOf(audit[..i]), audit[i])
    ensures audit[i] == NextEvent(k, audit[..i], audit[i].payload, at)
    ensures StoredOf(audit[..i]) == StoredOf(Persisted(audit))[..i]
  {
    PersistedStart(audit, |Persisted(audit)|);
    StoredPrefix(Persisted(audit), i);
    assert Persisted(audit)[..i] == audit[..i];
  }

  lemma NextPrefix(boot: Policy, audit: seq<Event>, i: nat, at: Time)
    requires i < |audit| && Persisted(audit[..i]) == audit[..i] && CleanEvent(audit[i], at)
    ensures
      var before, after, p := Of(boot, audit[..i]), Of(boot, audit[..i + 1]), audit[i].payload;
      && after.audit == before.audit + [audit[i]]
      && after.stored == before.stored + [Stored(p.proposal, p.decision, p.fingerprint)]
      && after.accepted == before.accepted + (if p.decision.accepted then [Accepted(p.proposal, at)] else [])
      && after.policies == before.policies
         + (if p.decision.accepted && p.proposal.Authored? && p.proposal.candidate.Some? then {p.proposal.candidate.value} else {})
      && after.active
         == (if p.decision.accepted && p.proposal.Authored? && p.proposal.candidate.Some? then p.proposal.candidate else before.active)
  {
    var e, accepted := audit[i], AcceptedOf(audit[..i]);
    assert audit[..i + 1] == audit[..i] + [e];
    PersistedSnoc(audit[..i], e);
    AcceptedSnoc(audit[..i], e);
    if e.payload.decision.accepted {
      PolicySnoc(boot, accepted, Accepted(e.payload.proposal, at));
    } else {
      assert accepted + [] == accepted;
    }
  }

  /** Recording the next clean event's transaction appends that very event. */
  lemma CleanRecorded(k: Kernel, boot: Policy, ws: Workspace, i: nat, at: Time)
    requires Sound(k, boot, ws) && Leads(ws) && i < |ws.stored| && |ws.stored| <= |ws.audit| && CleanEvent(ws.audit[i], at)
    ensures
      var start, p := Of(boot, ws.audit[..i]), ws.audit[i].payload;
      && start.active == Some(p.policyHash) && p.policyHash in start.policies
      && ByKey(start.stored, p.proposal.key).None? && ById(start.stored, p.proposal.id).None?
      && p.decision == k.decide(start.accepted, p.policyHash, at, p.proposal)
      && Recorded(k, start, p.policyHash, p.proposal, p.decision, p.fingerprint, at) == Of(boot, ws.audit[..i + 1])
  {
    var start, e := Of(boot, ws.audit[..i]), ws.audit[i];
    CleanEventFacts(k, boot, ws.audit, i, at);
    UnknownBefore(ws.stored, i);
    ActiveRegistered(boot, start.accepted);
    NextPrefix(boot, ws.audit, i, at);
    RecordedShape(k, start, e.payload.policyHash, e.payload.proposal, e.payload.decision, e.payload.fingerprint, at);
    assert e == RecordedEvent(k, start, e.payload.policyHash, e.payload.proposal, e.payload.decision, e.payload.fingerprint, at);
  }

  lemma LockedRecords(k: Kernel, ws: Workspace, configured: Policy, p: Proposal, d: Decision, fingerprint: Option<Digest>, at: Time)
    requires ws.active == Some(configured) && configured in ws.policies
    requires ByKey(ws.stored, p.key).None? && ById(ws.stored, p.id).None?
    requires d == k.decide(ws.accepted, configured, at, p)
    ensures SubmitLocked(k, ws, configured, p, fingerprint, at) == (Recorded(k, ws, configured, p, d, fingerprint, at), d)
  {}

  lemma IntentRecords(k: Kernel, ws: Workspace, r: Record, after: Workspace, d: Decision, at: Time)
    requires ByKey(ws.stored, r.proposal.key).None? && r.intent.Some?
    requires SubmitLocked(k, ws, r.governing, r.proposal, r.intent.value.fingerprint, at) == (after, d)
    requires ReplayMatches(k, after, r.proposal, r)
    ensures SubmitIntent(k, ws, r.governing, r, at) == Ok((after, d))
  {}

  lemma RetainedMatches(k: Kernel, boot: Policy, ws: Workspace, i: nat)
    requires Lawful(k) && Sound(k, boot, ws) && i < |ws.stored|
    ensures |ws.stored| == |Persisted(ws.audit)| && ReplayMatches(k, ws, ws.stored[i].proposal, RecordAt(k, ws, i))
  {
    ByKeyAt(ws.stored, i);
    StoredNeverConflicts(k, boot, ws, i);
    OneEventMatches(k, boot, ws, i);
  }

  /** Submitting the next record of a clean log to the prefix before it gives the prefix after it. */
  lemma CleanSubmission(k: Kernel, boot: Policy, ws: Workspace, i: nat, at: Time)
    requires Lawful(k) && Sound(k, boot, ws) && Leads(ws) && i < |ws.stored| == |Persisted(ws.audit)|
    requires CleanEvent(Persisted(ws.audit)[i], at)
    ensures i < |ws.audit| && !ws.stored[i].decision.replayed
    ensures SubmitIntent(k, Of(boot, ws.audit[..i]), RecordAt(k, ws, i).governing, RecordAt(k, ws, i), at)
         == Ok((Of(boot, ws.audit[..i + 1]), ws.stored[i].decision))
  {
    hide Sound, Lawful, Recorded, SubmitLocked, SubmitIntent, ReplayMatches, Governed, Leads;
    PersistedPlace(ws, i);
    var r, before, after, p := RecordAt(k, ws, i), Of(boot, ws.audit[..i]), Of(boot, ws.audit[..i + 1]), ws.audit[i].payload;
    SoundLists(k, boot, ws);
    StoredNeverConflicts(k, boot, ws, i);
    RecordIs(k, ws, i);
    CleanRecorded(k, boot, ws, i, at);
    LockedRecords(k, before, p.policyHash, p.proposal, p.decision, p.fingerprint, at);
    SameRecord(k, boot, ws, i);
    RetainedMatches(k, boot, after, i);
    IntentRecords(k, before, r, after, p.decision, at);
  }

  lemma RecordIs(k: Kernel, ws: Workspace, i: nat)
    requires Leads(ws) && ws.stored == StoredOf(Persisted(ws.audit)) && i < |ws.stored| && !ws.stored[i].decision.replayed
    ensures |ws.stored| <= |ws.audit|
    ensures
      var r, p := RecordAt(k, ws, i), ws.audit[i].payload;
      && ws.stored[i] == Stored(p.proposal, p.decision, p.fingerprint)
      && r.governing == p.policyHash && r.proposal == p.proposal && r.expected == p.decision
      && r.intent.Some? && r.intent.value.fingerprint == p.fingerprint
  {
    PersistedStart(ws.audit, |ws.stored|);
  }

  lemma SameRecord(k: Kernel, boot: Policy, ws: Workspace, i: nat)
    requires Sound(k, boot, ws) && Leads(ws) && i < |ws.stored| == |Persisted(ws.audit)| && |ws.stored| <= |ws.audit|
    ensures
      var after := Of(boot, ws.audit[..i + 1]);
      && Sound(k, boot, after) && |after.stored| == |Persisted(after.audit)| == i + 1
      && after.stored[i] == ws.stored[i] && RecordAt(k, after, i) == RecordAt(k, ws, i)
  {
    PrefixIsSound(k, boot, ws, i + 1);
    assert Listed(ws);
    hide Sound;
    PrefixShape(boot, ws, i + 1);
    PrefixLog(k, boot, ws, i + 1);
    assert Log(k, Of(boot, ws.audit[..i + 1]))[i] == Log(k, ws)[i];
  }

  lemma ImportCounts(k: Kernel, policies: set<Policy>, ws: Workspace, tally: Tally, r: Record, after: Workspace, at: Time)
    requires r.governing in policies && ByKey(ws.stored, r.proposal.key).None? && !r.expected.replayed
    requires SubmitIntent(k, ws, r.governing, r, at) == Ok((after, r.expected))
    ensures ImportRecord(k, policies, ws, tally, r, at) == Ok((after, tally.(imported := tally.imported + 1)))
  {}

  lemma SoundLists(k: Kernel, boot: Policy, ws: Workspace)
    requires Sound(k, boot, ws)
    ensures ws.stored == StoredOf(Persisted(ws.audit))
  {}

  lemma CleanStep(k: Kernel, boot: Policy, ws: Workspace, policies: set<Policy>, tally: Tally, i: nat, at: Time)
    requires Lawful(k) && Sound(k, boot, ws) && Leads(ws) && i < |ws.stored| == |Persisted(ws.audit)|
    requires CleanEvent(Persisted(ws.audit)[i], at)
    requires RecordAt(k, ws, i).governing in policies
    ensures i < |ws.audit|
    ensures ImportRecord(k, policies, Of(boot, ws.audit[..i]), tally, RecordAt(k, ws, i), at)
         == Ok((Of(boot, ws.audit[..i + 1]), tally.(imported := tally.imported + 1)))
  {
    hide *;
    PersistedPlace(ws, i);
    SoundLists(k, boot, ws);
    StoredNeverConflicts(k, boot, ws, i);
    RecordIs(k, ws, i);
    CleanSubmission(k, boot, ws, i, at);
    CleanRecorded(k, boot, ws, i, at);
    ImportCounts(k, policies, Of(boot, ws.audit[..i]), tally, RecordAt(k, ws, i), Of(boot, ws.audit[..i + 1]), at);
  }

  predicate Listed(ws: Workspace)
  {
    ws.stored == StoredOf(Persisted(ws.audit))
  }

  lemma PrefixShape(boot: Policy, ws: Workspace, m: nat)
    requires Listed(ws) && Leads(ws) && m <= |ws.stored|
    ensures |ws.stored| <= |ws.audit|
    ensures
      var prefix := Of(boot, ws.audit[..m]);
      && Listed(prefix) && |prefix.stored| == |Persisted(prefix.audit)| == m
      && prefix.stored == ws.stored[..m] && prefix.audit <= ws.audit && Persisted(prefix.audit) == prefix.audit
  {
    PersistedStart(ws.audit, |ws.stored|);
    assert StoredOf(ws.audit[..m]) == ws.stored[..m];
  }

  lemma PrefixLog(k: Kernel, boot: Policy, ws: Workspace, m: nat)
    requires Listed(ws) && Leads(ws) && m <= |ws.stored|
    ensures |ws.stored| <= |ws.audit| && m == |Of(boot, ws.audit[..m]).stored| == |Persisted(ws.audit[..m])|
    ensures Log(k, Of(boot, ws.audit[..m])) == Log(k, ws)[..m]
  {
    PrefixShape(boot, ws, m);
    LogPrefix(k, Of(boot, ws.audit[..m]), ws);
  }

  lemma OwnPrefixReplays(k: Kernel, boot: Policy, ws: Workspace, policies: set<Policy>, m: nat, clock: Clock)
    requires Lawful(k) && Sound(k, boot, ws) && Leads(ws) && m <= |ws.stored| == |Persisted(ws.audit)|
    requires forall j :: 0 <= j < m ==> RecordAt(k, ws, j).governing in policies
    ensures |ws.stored| <= |ws.audit|
    ensures ImportAll(k, policies, Of(boot, ws.audit[..m]), Log(k, ws)[..m], clock) == Ok((Of(boot, ws.audit[..m]), Tally(0, m, [])))
  {
    hide Sound, Lawful, Of, Log, RecordAt, ImportAll;
    SoundLists(k, boot, ws);
    PrefixLog(k, boot, ws, m);
    var prefix := Of(boot, ws.audit[..m]);
    PrefixIsSound(k, boot, ws, m);
    SoundLists(k, boot, prefix);
    RecordsOfLog(k, ws);
    RecordsOfLog(k, prefix);
    forall j | 0 <= j < m
      ensures Log(k, prefix)[j].governing in policies
    {
      assert Log(k, prefix)[j] == Log(k, ws)[j];
    }
    RetainedLogReplays(k, boot, prefix, policies, m, clock);
    assert Log(k, prefix)[..m] == Log(k, ws)[..m];
  }

  lemma RecordsOfLog(k: Kernel, ws: Workspace)
    requires |ws.stored| == |Persisted(ws.audit)|
    ensures |Log(k, ws)| == |ws.stored|
    ensures forall j :: 0 <= j < |ws.stored| ==> Log(k, ws)[j] == RecordAt(k, ws, j)
  {}

  /** The states and counts of a replay of the log into its own prefix of length m. */
  function CleanStates(boot: Policy, audit: seq<Event>, m: nat, n: nat): seq<(Workspace, Tally)>
    requires m <= n <= |audit|
  {
    seq(n + 1, j requires 0 <= j <= n <= |audit| => (Of(boot, audit[..j]), Tally(if j < m then 0 else j - m, m, [])))
  }

  lemma PersistedPlace(ws: Workspace, i: nat)
    requires Leads(ws) && i < |Persisted(ws.audit)|
    ensures i < |ws.audit| && Persisted(ws.audit)[i] == ws.audit[i]
  {
    PersistedStart(ws.audit, |Persisted(ws.audit)|);
  }

  lemma CleanStateStep(k: Kernel, boot: Policy, ws: Workspace, policies: set<Policy>, m: nat, j: nat, clock: Clock)
    requires Lawful(k) && Sound(k, boot, ws) && CleanFrom(ws, m, clock) && m <= j < |ws.stored| == |Persisted(ws.audit)| <= |ws.audit|
    requires RecordAt(k, ws, j).governing in policies
    ensures
      var states := CleanStates(boot, ws.audit, m, |ws.stored|);
      ImportStep(k, policies, clock)(states[j], Log(k, ws)[j]) == Ok(states[j + 1])
  {
    hide Sound, Leads, Of, ImportRecord;
    PersistedPlace(ws, j);
    CleanStep(k, boot, ws, policies, Tally(j - m, m, []), j, clock(j));
  }

  /** Replaying a clean log into the log's own prefix of length m. */
  lemma CleanLogImports(k: Kernel, boot: Policy, ws: Workspace, policies: set<Policy>, m: nat, clock: Clock)
    requires Lawful(k) && Sound(k, boot, ws) && CleanFrom(ws, m, clock) && m <= |ws.stored| == |Persisted(ws.audit)| <= |ws.audit|
    requires forall j :: 0 <= j < |ws.stored| ==> RecordAt(k, ws, j).governing in policies
    ensures Fold(ImportStep(k, policies, clock), (Of(boot, ws.audit[..m]), ZERO), Log(k, ws))
         == Ok(CleanStates(boot, ws.audit, m, |ws.stored|)[|ws.stored|])
  {
    hide Sound, Leads, Of, ImportRecord;
    OwnPrefixReplays(k, boot, ws, policies, m, clock);
    var states := CleanStates(boot, ws.audit, m, |ws.stored|);
    var log, step := Log(k, ws), ImportStep(k, policies, clock);
    forall j | m <= j < |log|
      ensures step(states[j], log[j]) == Ok(states[j + 1])
    {
      CleanStateStep(k, boot, ws, policies, m, j, clock);
    }
    FoldChain(step, (Of(boot, ws.audit[..m]), ZERO), log, states, m);
  }

  /** The persisted prefix of a clean workspace exports the same bundle. */
  lemma SameBundle(k: Kernel, boot: Policy, ws: Workspace)
    requires Listed(ws) && Leads(ws) && ws == Of(boot, ws.audit)
    ensures |ws.stored| == |Persisted(ws.audit)| <= |ws.audit|
    ensures |Of(boot, ws.audit[..|ws.stored|]).stored| == |Persisted(ws.audit[..|ws.stored|])|
    ensures Bundled(k, Of(boot, ws.audit[..|ws.stored|]), Log(k, Of(boot, ws.audit[..|ws.stored|]))) == Bundled(k, ws, Log(k, ws))
  {
    var n := |ws.stored|;
    PrefixLog(k, boot, ws, n);
    PersistedStart(ws.audit, n);
    assert Log(k, ws)[..n] == Log(k, ws);
    assert Persisted(ws.audit[..n]) == Persisted(ws.audit);
  }

  lemma CleanExport(k: Kernel, boot: Policy, ws: Workspace)
    requires Sound(k, boot, ws) && Leads(ws)
    ensures |ws.stored| == |Persisted(ws.audit)| <= |ws.audit|
    ensures Export(k, Of(boot, ws.audit[..|ws.stored|])) == Ok(Bundled(k, ws, Log(k, ws)))
  {
    SoundIsOf(k, boot, ws);
    SameBundle(k, boot, ws);
    PrefixIsSound(k, boot, ws, |ws.stored|);
    ExportKeepsAuditOrder(k, boot, Of(boot, ws.audit[..|ws.stored|]));
  }

  lemma Prepared(b: Bundle, boot: Policy, audit: seq<Event>)
    requires b.bootstrap == boot && boot in b.policies
    ensures Prepare(b, Of(boot, audit)) == Ok(Of(boot, audit))
  {
    ActiveRegistered(boot, AcceptedOf(Persisted(audit)));
  }

  /** Committing a clean workspace's export into any prefix of its own persisted events replays
      those, imports the rest, and rebuilds the whole persisted log. */
  lemma CleanBundleCommits(k: Kernel, boot: Policy, ws: Workspace, m: nat, clock: Clock)
    requires Lawful(k) && Sound(k, boot, ws) && CleanFrom(ws, m, clock) && m <= |ws.stored|
    ensures |ws.stored| == |Persisted(ws.audit)| <= |ws.audit|
    ensures Commit(k, Bundled(k, ws, Log(k, ws)), Of(boot, ws.audit[..m]), clock)
         == Ok((Of(boot, ws.audit[..|ws.stored|]), Import(Tally(|ws.stored| - m, m, []), true)))
  {
    hide *;
    ExportKeepsAuditOrder(k, boot, ws);
    CleanLeads(ws, m, clock);
    CleanExport(k, boot, ws);
    var n, b, start, after := |ws.stored|, Bundled(k, ws, Log(k, ws)), Of(boot, ws.audit[..m]), Of(boot, ws.audit[..|ws.stored|]);
    Prepared(b, boot, ws.audit[..m]);
    forall j | 0 <= j < n
      ensures RecordAt(k, ws, j).governing in ws.policies
    {
      RecordOfLog(k, ws, j);
      assert Log(k, ws)[j].governing in ws.policies;
    }
    CleanLogImports(k, boot, ws, ws.policies, m, clock);
    CleanFold(k, boot, ws, ws.policies, m, clock);
    CommitRebuilds(k, b, start, start, after, Tally(n - m, m, []), clock);
  }

  lemma CleanLeads(ws: Workspace, m: nat, clock: Clock)
    requires CleanFrom(ws, m, clock)
    ensures Leads(ws)
  {}

  lemma RecordOfLog(k: Kernel, ws: Workspace, j: nat)
    requires j < |ws.stored| == |Persisted(ws.audit)|
    ensures |Log(k, ws)| == |ws.stored| && Log(k, ws)[j] == RecordAt(k, ws, j)
  {}

  lemma CleanFold(k: Kernel, boot: Policy, ws: Workspace, policies: set<Policy>, m: nat, clock: Clock)
    requires m <= |ws.stored| == |Persisted(ws.audit)| <= |ws.audit|
    requires Fold(ImportStep(k, policies, clock), (Of(boot, ws.audit[..m]), ZERO), Log(k, ws))
          == Ok(CleanStates(boot, ws.audit, m, |ws.stored|)[|ws.stored|])
    ensures ImportAll(k, policies, Of(boot, ws.audit[..m]), Log(k, ws), clock)
         == Ok((Of(boot, ws.audit[..|ws.stored|]), Tally(|ws.stored| - m, m, [])))
  {
    hide *;
    var n, start, step := |ws.stored|, (Of(boot, ws.audit[..m]), ZERO), ImportStep(k, policies, clock);
    FoldIsImport(k, policies, start.0, Log(k, ws), clock);
    LastState(boot, ws.audit, m, n);
  }

  lemma FoldIsImport(k: Kernel, policies: set<Policy>, ws: Workspace, records: seq<Record>, clock: Clock)
    ensures ImportAll(k, policies, ws, records, clock) == Fold(ImportStep(k, policies, clock), (ws, ZERO), records)
  {}

  lemma LastState(boot: Policy, audit: seq<Event>, m: nat, n: nat)
    requires m <= n <= |audit|
    ensures |CleanStates(boot, audit, m, n)| == n + 1
    ensures CleanStates(boot, audit, m, n)[n] == (Of(boot, audit[..n]), Tally(n - m, m, []))
  {}

  // ---- only clean logs are reproduced ----

  /** A newly recorded event, and the record it came from. */
  predicate LinkedTo(r: Record, e: Event, at: Time)
  {
    && r.proposal == e.payload.proposal && e.occurredAt == at
    && (r.governing == e.payload.policyHash ==> e.payload.configured == Some(e.payload.policyHash))
  }

  ghost predicate Linked(records: seq<Record>, e: Event, clock: Clock)
  {
    exists i :: 0 <= i < |records| && LinkedTo(records[i], e, clock(records[i].order))
  }

  ghost predicate NewLinked(start: Workspace, after: Workspace, records: seq<Record>, clock: Clock)
  {
    forall j :: |start.audit| <= j < |after.audit| && after.audit[j].payload.persisted ==> Linked(records, after.audit[j], clock)
  }

  lemma RecordedLinks(k: Kernel, boot: Policy, ws: Workspace, r: Record, after: Workspace, d: Decision, at: Time)
    requires Sound(k, boot, ws) && Outcome(k, ws, r, after, d, at)
    ensures ws.audit <= after.audit && |after.audit| <= |ws.audit| + 1
    ensures |after.audit| > |ws.audit| && after.audit[|ws.audit|].payload.persisted ==> LinkedTo(r, after.audit[|ws.audit|], at)
  {
    ActiveRegistered(boot, ws.accepted);
    if !d.replayed && !Refused(ws, after, at) {
      RecordedShape(k, ws, r.governing, r.proposal, d, FingerprintOf(k, r), at);
    }
  }

  lemma LinkedMore(records: seq<Record>, r: Record, e: Event, clock: Clock)
    requires Linked(records, e, clock) || LinkedTo(r, e, clock(r.order))
    ensures Linked(records + [r], e, clock)
  {
    var all := records + [r];
    if Linked(records, e, clock) {
      var i :| 0 <= i < |records| && LinkedTo(records[i], e, clock(records[i].order));
      assert all[i] == records[i];
    } else {
      assert all[|records|] == r;
    }
  }

  lemma NewLinkedStep(start: Workspace, ws: Workspace, after: Workspace, records: seq<Record>, r: Record, clock: Clock)
    requires start.audit <= ws.audit <= after.audit && |after.audit| <= |ws.audit| + 1 && NewLinked(start, ws, records, clock)
    requires |after.audit| > |ws.audit| && after.audit[|ws.audit|].payload.persisted ==>
      LinkedTo(r, after.audit[|ws.audit|], clock(r.order))
    ensures NewLinked(start, after, records + [r], clock)
  {
    forall j | |start.audit| <= j < |after.audit| && after.audit[j].payload.persisted
      ensures Linked(records + [r], after.audit[j], clock)
    {
      LinkedMore(records, r, after.audit[j], clock);
    }
  }

  lemma {:induction false} ImportLinks(k: Kernel, boot: Policy, policies: set<Policy>, start: Workspace, records: seq<Record>, clock: Clock)
    requires Lawful(k) && Sound(k, boot, start) && ImportAll(k, policies, start, records, clock).Ok?
    ensures start.audit <= ImportAll(k, policies, start, records, clock).value.0.audit
    ensures NewLinked(start, ImportAll(k, policies, start, records, clock).value.0, records, clock)
  {
    hide Sound, Lawful, ImportRecord;
    if records != [] {
      var n := |records| - 1;
      var (ws, tally) := ImportAll(k, policies, start, records[..n], clock).value;
      var (after, next) := ImportAll(k, policies, start, records, clock).value;
      ImportLinks(k, boot, policies, start, records[..n], clock);
      ImportGrows(k, boot, policies, start, records[..n], clock);
      ImportLast(k, policies, start, records, clock, ws, tally);
      LinkStep(k, boot, policies, start, ws, tally, records[..n], records[n], clock, after, next);
      assert records == records[..n] + [records[n]];
    }
  }

  lemma LinkStep(k: Kernel, boot: Policy, policies: set<Policy>, start: Workspace, ws: Workspace, tally: Tally, records: seq<Record>, r: Record, clock: Clock,
                 after: Workspace, next: Tally)
    requires Lawful(k) && Sound(k, boot, ws) && start.audit <= ws.audit && NewLinked(start, ws, records, clock)
    requires ImportRecord(k, policies, ws, tally, r, clock(r.order)) == Ok((after, next))
    ensures start.audit <= after.audit && NewLinked(start, after, records + [r], clock)
  {
    hide ImportRecord;
    var d := StepOf(k, boot, policies, ws, tally, r, clock(r.order), after, next);
    RecordedLinks(k, boot, ws, r, after, d, clock(r.order));
    NewLinkedStep(start, ws, after, records, r, clock);
  }

  lemma LogIsCanonical(k: Kernel, boot: Policy, ws: Workspace)
    requires Lawful(k) && Sound(k, boot, ws) && |ws.stored| == |Persisted(ws.audit)|
    ensures forall i :: 0 <= i < |ws.stored| ==> RecordCanonical(k, Log(k, ws)[i]) && Log(k, ws)[i].order == i
    ensures forall i, j :: 0 <= i < j < |ws.stored| ==> Log(k, ws)[i].id != Log(k, ws)[j].id
    ensures |Log(k, ws)| == |ws.stored|
  {
    hide Lawful, Chained, AllGoverned, AcceptedOf, PoliciesAfter, ActiveAfter, Persisted, StoredOf;
    RecordsOfLog(k, ws);
    forall i | 0 <= i < |ws.stored|
      ensures RecordCanonical(k, Log(k, ws)[i]) && Log(k, ws)[i].order == i
      ensures Log(k, ws)[i].id == ws.stored[i].proposal.id
    {
      StoredNeverConflicts(k, boot, ws, i);
    }
  }

  lemma ActiveIsRegistered(k: Kernel, boot: Policy, ws: Workspace)
    requires Sound(k, boot, ws)
    ensures ws.active.Some? && ws.active.value in ws.policies
  {
    ActiveRegistered(boot, ws.accepted);
  }

  /** The exported bundle passes its own validators. */
  lemma ExportIsCanonical(k: Kernel, boot: Policy, ws: Workspace)
    requires Lawful(k) && Sound(k, boot, ws)
    ensures |ws.stored| == |Persisted(ws.audit)| && ws.active.Some?
    ensures Canonical(k, Bundled(k, ws, Log(k, ws)))
  {
    hide Sound, Lawful, Log, Persisted, Canonical, RecordCanonical;
    ExportKeepsAuditOrder(k, boot, ws);
    ActiveIsRegistered(k, boot, ws);
    LogIsCanonical(k, boot, ws);
    SortedCanonical(k, Log(k, ws), Bundled(k, ws, Log(k, ws)));
  }

  lemma SortedCanonical(k: Kernel, log: seq<Record>, b: Bundle)
    requires b.bootstrap in b.policies && b.active in b.policies && b.records == Sort(RecordLeq, log)
    requires forall i :: 0 <= i < |log| ==> RecordCanonical(k, log[i]) && log[i].order == i
    requires forall i, j :: 0 <= i < j < |log| ==> log[i].id != log[j].id
    ensures Canonical(k, b)
  {
    RecordsAreOrdered();
    SortAscends(RecordLeq, log);
    assert |multiset(b.records)| == |multiset(log)|;
    SortedMembers(log, b.records);
  }

  lemma SortedMembers(log: seq<Record>, sorted: seq<Record>)
    requires multiset(log) == multiset(sorted) && |log| == |sorted|
    requires forall i :: 0 <= i < |log| ==> log[i].order == i
    requires forall i, j :: 0 <= i < j < |log| ==> log[i].id != log[j].id
    ensures forall i :: 0 <= i < |sorted| ==> sorted[i] in log
    ensures forall i, j :: 0 <= i < j < |sorted| ==> sorted[i].id != sorted[j].id && sorted[i].order != sorted[j].order
  {
    DistinctMultiset(log);
    forall i | 0 <= i < |sorted|
      ensures sorted[i] in log
    {
      assert sorted[i] in multiset(sorted);
    }
    forall i, j | 0 <= i < j < |sorted|
      ensures sorted[i] != sorted[j]
    {
      if sorted[i] == sorted[j] {
        CountedTwice(sorted, i, j);
      }
    }
  }

  lemma HashDeterminesEvent(k: Kernel, xs: seq<Event>, ys: seq<Event>, a: Event, b: Event)
    requires CollisionFree(k) && a.hash == b.hash
    requires a == NextEvent(k, xs, a.payload, a.occurredAt) && b == NextEvent(k, ys, b.payload, b.occurredAt)
    ensures a == b
  {}

  /** A persisted event with the hash of another log's i-th event is at position i as well. */
  lemma HashPlacesEvent(k: Kernel, audit: seq<Event>, other: seq<Event>, i: nat)
    requires CollisionFree(k) && Chained(k, audit) && Chained(k, other)
    requires i < |Persisted(audit)| && i < |other| && Persisted(audit)[i].hash == other[i].hash
    ensures i < |audit| && audit[i] == other[i]
  {
    var j := PersistedIndex(audit, i);
    HashDeterminesEvent(k, audit[..j], other[..i], audit[j], other[i]);
  }

  lemma LinkedIsConfigured(records: seq<Record>, e: Event, clock: Clock, i: nat)
    requires Linked(records, e, clock) && i < |records| && records[i].proposal == e.payload.proposal && records[i].governing == e.payload.policyHash
    requires forall x :: 0 <= x < |records| ==> records[x].id == records[x].proposal.id
    requires forall x, y :: 0 <= x < y < |records| ==> records[x].id != records[y].id
    ensures e.payload.configured == Some(e.payload.policyHash) && e.occurredAt == clock(records[i].order)
  {}

  /** A workspace of persisted events only, such as a preflight clone. */
  predicate OnlyPersisted(ws: Workspace)
  {
    |ws.audit| == |ws.stored|
  }

  lemma RebuiltEvents(k: Kernel, audit: seq<Event>, rebuilt: seq<Event>)
    requires CollisionFree(k) && Chained(k, audit) && Chained(k, rebuilt)
    requires |Persisted(audit)| == |rebuilt|
    requires forall i :: 0 <= i < |rebuilt| ==> Persisted(audit)[i].hash == rebuilt[i].hash
    ensures rebuilt <= audit
  {
    PersistedLength(audit);
    forall i | 0 <= i < |rebuilt|
      ensures audit[i] == rebuilt[i]
    {
      HashPlacesEvent(k, audit, rebuilt, i);
    }
  }

  lemma NewEventsClean(k: Kernel, start: Workspace, after: Workspace, ws: Workspace, clock: Clock)
    requires |ws.stored| == |Persisted(ws.audit)| && |after.stored| == |Persisted(after.audit)| == |after.audit| == |ws.stored|
    requires Listed(after) && Persisted(after.audit) == after.audit && start.audit <= after.audit
    requires NewLinked(start, after, Log(k, ws), clock) && Log(k, after) == Log(k, ws)
    requires forall x, y :: 0 <= x < y < |ws.stored| ==> Log(k, ws)[x].id != Log(k, ws)[y].id
    requires forall i :: 0 <= i < |after.audit| ==> after.audit[i].payload.persisted
    ensures forall i :: |start.audit| <= i < |after.audit| ==> CleanEvent(after.audit[i], clock(i))
  {
    var log := Log(k, ws);
    forall i | |start.audit| <= i < |after.audit|
      ensures CleanEvent(after.audit[i], clock(i))
    {
      assert log[i] == RecordAt(k, after, i);
      LinkedIsConfigured(log, after.audit[i], clock, i);
    }
  }

  lemma {:induction false} PersistedArePersisted(audit: seq<Event>)
    requires Persisted(audit) == audit
    ensures forall i :: 0 <= i < |audit| ==> audit[i].payload.persisted
  {
    FilterMembers(IsPersisted(), audit);
    forall i | 0 <= i < |audit|
      ensures audit[i].payload.persisted
    {
      assert audit[i] in Filter(IsPersisted(), audit);
    }
  }

  lemma MatchedLogs(k: Kernel, ws: Workspace, after: Workspace)
    requires |ws.stored| == |Persisted(ws.audit)| == |after.stored| == |Persisted(after.audit)|
    requires forall i :: 0 <= i < |ws.stored| ==> RecordMatches(Log(k, ws)[i], Log(k, after)[i])
    ensures Log(k, after) == Log(k, ws)
    ensures forall i :: 0 <= i < |ws.stored| ==> Persisted(ws.audit)[i].hash == Persisted(after.audit)[i].hash
  {
    forall i | 0 <= i < |ws.stored|
      ensures RecordAt(k, after, i) == RecordAt(k, ws, i)
      ensures Persisted(ws.audit)[i].hash == Persisted(after.audit)[i].hash
    {
      assert RecordMatches(Log(k, ws)[i], Log(k, after)[i]);
      assert RecordAt(k, after, i).intent == RecordAt(k, ws, i).intent;
    }
  }

  /** What an export reproduces: the rebuilt log is the source's own, event for event. */
  lemma VerifiedMeansReproduced(k: Kernel, boot: Policy, ws: Workspace, origin: Policy, target: Workspace, clock: Clock, after: Workspace, result: Import)
    requires Lawful(k) && CollisionFree(k) && Sound(k, boot, ws) && Sound(k, origin, target) && OnlyPersisted(target)
    requires |ws.stored| == |Persisted(ws.audit)| && ws.active.Some?
    requires Commit(k, Bundled(k, ws, Log(k, ws)), target, clock) == Ok((after, result)) && result.verified
    ensures origin == boot && CleanFrom(ws, |target.stored|, clock) && |target.stored| <= |ws.stored| <= |ws.audit|
    ensures after == Of(boot, ws.audit[..|ws.stored|]) && target == Of(boot, ws.audit[..|target.stored|])
    ensures result.tally == Tally(|ws.stored| - |target.stored|, |target.stored|, [])
  {
    hide Sound, Lawful, CollisionFree, Commit, Bundled, Log, Of;
    Reproduced(k, boot, ws, origin, target, clock, after, result);
    assert target.audit == ws.audit[..|target.stored|];
    assert after.audit == ws.audit[..|ws.stored|];
    SoundIsOf(k, origin, target);
    SoundIsOf(k, origin, after);
  }

  lemma Reproduced(k: Kernel, boot: Policy, ws: Workspace, origin: Policy, target: Workspace, clock: Clock, after: Workspace, result: Import)
    requires Lawful(k) && CollisionFree(k) && Sound(k, boot, ws) && Sound(k, origin, target) && OnlyPersisted(target)
    requires |ws.stored| == |Persisted(ws.audit)| && ws.active.Some?
    requires Commit(k, Bundled(k, ws, Log(k, ws)), target, clock) == Ok((after, result)) && result.verified
    ensures origin == boot && |target.stored| <= |ws.stored| == |after.audit|
    ensures target.audit <= after.audit <= ws.audit && LeadsUpTo(after.audit, |after.audit|)
    ensures forall i :: |target.audit| <= i < |after.audit| ==> CleanEvent(after.audit[i], clock(i))
    ensures Sound(k, origin, after) && result.tally == Tally(|ws.stored| - |target.stored|, |target.stored|, [])
  {
    hide *;
    var b := Bundled(k, ws, Log(k, ws));
    ExportKeepsAuditOrder(k, boot, ws);
    ExportIsCanonical(k, boot, ws);
    VerifiedImportExtendsTarget(k, origin, b, target, clock, after, result);
    CommitParts(k, origin, b, target, clock, after, result);
    ImportLinks(k, origin, b.policies, target, Log(k, ws), clock);
    LogIsCanonical(k, boot, ws);
    ReproducedEvents(k, boot, ws, origin, target, clock, after, result.tally);
  }

  lemma ReproducedEvents(k: Kernel, boot: Policy, ws: Workspace, origin: Policy, target: Workspace, clock: Clock, after: Workspace, tally: Tally)
    requires CollisionFree(k) && Sound(k, boot, ws) && Sound(k, origin, after) && OnlyPersisted(target)
    requires |ws.stored| == |Persisted(ws.audit)| == |after.stored| == |Persisted(after.audit)|
    requires forall i :: 0 <= i < |ws.stored| ==> RecordMatches(Log(k, ws)[i], Log(k, after)[i])
    requires forall x, y :: 0 <= x < y < |ws.stored| ==> Log(k, ws)[x].id != Log(k, ws)[y].id
    requires Grown(target, after, |ws.stored|, tally, clock) && tally.imported == |ws.stored| - |target.stored| && tally.conflicts == []
    requires NewLinked(target, after, Log(k, ws), clock)
    ensures |after.audit| == |ws.stored| && target.audit <= after.audit <= ws.audit && LeadsUpTo(after.audit, |after.audit|)
    ensures forall i :: |target.audit| <= i < |after.audit| ==> CleanEvent(after.audit[i], clock(i))
  {
    hide Log, CleanEvent, NewLinked, NextEvent;
    AllPersisted(after.audit);
    PersistedArePersisted(after.audit);
    MatchedLogs(k, ws, after);
    RebuiltEvents(k, ws.audit, after.audit);
    NewEventsClean(k, target, after, ws, clock);
  }
}
