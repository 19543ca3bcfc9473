# Verified model of the research ledger

Every durable change of the system is a decision in an append-only audit log; heads,
projections, bundles and handbooks are derived from logs by replay. This project models seven
parts of that and proves that the log and what is derived from it agree over whole runs.

* **Audit replay** (`AuditLog`, `ReplayTables`, `PolicyReplay`, `ProgressReplay`, `TrailReplay`,
  `EvaluatorReplay`, `HarnessReplay`, `AuditReplay`, `ReplayConservation`, `ReplayHistory`,
  `ReplayAcceptance`): the loop that rebuilds every `expected_*` dictionary and demands equality
  with the stored tables, which logs it accepts, the two policy replays, and the check that
  ties transactions to audit records.
* **Workspace exchange** (`WorkspaceExchange`, `ExchangeProofs`, `ExchangePrefix`,
  `ExchangeReproduction`, `ExchangeImport`, `ExchangeAnswers`, `ArtifactTransfer`): export,
  replay through the transaction coordinator and what it answers, comparison, preflight,
  conflicts and the artifact rollback.
* **Collaboration sessions** (`CollaborationEngine`, `CollaborationValidation`,
  `CollaborationService`, `CollaborationLaws`): the engine, the batch validator of its states,
  the online handlers and the offline verifier, and what each accepts in terms of the histories.
* **Snapshot currency and the capped evidence index** (`SnapshotCurrency`, `EvidenceIndex`).
* **Admission lineage** (`AdmissionLineage`): the tables, keys and triggers of migration 0005.
* **Governance records** (`PolicyLedger`, `PolicyChain`): the first-writer-wins,
  content-addressed store, and what a verifying approval rests on.
* **Handbook** (`HandbookManifest`, `HandbookDocument`, `HandbookFindings`, `HandbookPrinter`,
  `HandbookMarkdown`, `HandbookReading`, `Ordering`): the inspection of the declarations, a
  document that does not depend on their order, and Markdown that a CommonMark reader undoes.

Code that fills dictionaries or stores in place is a class whose methods are proved against
functions on plain values; the theorems are about those functions. `Common` holds optional
values, raised errors and loops over sequences. `dafny verify dfyconfig.toml` checks the whole
project.

## What the proofs found

* A code span reads back as its value exactly when the value is nonempty, one line, and not
  only spaces; for spaces the padding rule of CommonMark does not apply, and it is read back
  with what the printer added.
* An import reproduces a log exactly when its persisted events come first, each under the
  policy then active and at the time the import's clock reads for it: event hashes cover the
  time, so a clock that does not repeat the source's times imports nothing new. An audited
  refusal followed by a stored transaction ends imports into that workspace for good, for every
  bundle and every clock.
* A bundle record under a retained key whose expected decision is the coordinator's own refusal
  is counted as imported; every other record that is not the retained transaction's own is a
  conflict or makes the import raise.
* A failed artifact transfer restores the target's files except when the source returned bytes
  of another digest: those stay behind under their own address. Errors other than `OSError` and
  `ValueError` leave all copies in place.
* The rule that an admission may not omit its revisions is checked when the decision is
  inserted only; a revision inserted later can break it, and nothing else can.
* An admitted governance chain separates every two authorities except evaluator and proposer: a
  chain in which they are one actor is stored and verifies.
* The offline collaboration verifier accepts a recorded termination that names no reason; the
  online handler refuses it. This is the only difference that is not a rule of the log itself.
* The batch validator of collaboration states can reject what the engine built in one way only:
  a repeated request id.
* The transaction check counts persisted records per transaction; it is a one-for-one match
  because proposal ids are unique, and would pass a duplicated row otherwise.
* A verified workspace is determined by its log but for two things: the evaluator head before
  any accepted succession, and further registered policies when no transition was accepted.
* The Markdown of a handbook identifies its manifest up to the order of declarations.

All of this is stated for every input; where the code meets a promise only under a condition,
the condition is proved to be exact.

## Model

| member | source | states |
|---|---|---|
| AuditReplay.ReplayIsSound | src/super_scientist/application/workspace_integrity.py:1050-1991 | After any replay that succeeds, whatever the log says: trails are linked chains, plan versions have no gap, run heads are greatest, successions, measurements and harness references all resolve |
| AuditReplay.ReplayForgetsVerdicts | src/super_scientist/application/workspace_integrity.py:1050-1991 | The replayed dictionaries depend on the log alone: the checks outside the model decide whether a replay succeeds, never what it produces |
| AuditReplay.VerifiedTablesExactly | src/super_scientist/application/workspace_integrity.py:1993-2331 | The tables that verify for a log are exactly the replayed projections with an allowed evaluator head and policies both policy replays accept |
| AuditReplay.LogDeterminesTables | src/super_scientist/application/workspace_integrity.py:1993-2331 | Two workspaces with the same audit log that both verify have equal projections and heads; the evaluator head may differ only while no succession was accepted, and is then empty or the unique root |
| AuditReplay.LogDeterminesRegistry | src/super_scientist/application/workspace_integrity.py:2956-3043 | When no two policies share a hash, every log fixes the active policy and every log with a transition fixes the whole registry, contents included |
| AuditReplay.BaselineHeadIsOpen | src/super_scientist/application/workspace_integrity.py:2309-2326 | The evaluator head really is open before any accepted succession: with a unique root, both the empty head and the root verify |
| AuditReplay.RegistryIsOpen | src/super_scientist/application/workspace_integrity.py:2964-2974 | Without a policy transition a verified workspace stays verified when any further policy that decodes is registered |
| ReplayAcceptance.FitsExactly | src/super_scientist/application/workspace_integrity.py:1059-1954 | One record applies exactly when its governing hash fits, its keys are new among the rows of the earlier records, its references are among them, and it is the next version, the later event or the continuing succession of those rows |
| ReplayAcceptance.ReplayAcceptsExactly | src/super_scientist/application/workspace_integrity.py:1050-1991 | The replay accepts a log exactly when every record that takes effect passes the checks outside the model and fits the rows of the records before it |
| ReplayAcceptance.VerifiedExactly | src/super_scientist/application/workspace_integrity.py:961-2331 | A workspace verifies exactly when its log is acceptable, its tables hold exactly the rows and last heads of the log, its policies decode, and both policy replays pass |
| ReplayConservation.ApplyGrows | src/super_scientist/application/workspace_integrity.py:1059-1954 | One accepted record adds exactly the rows its payload names to the dictionaries, under keys that were free, and sets exactly its own heads |
| ReplayConservation.TablesAreTheLog | src/super_scientist/application/workspace_integrity.py:1050-1991 | After a replay every dictionary is exactly the rows of the accepted records, each observation with its manifest's campaign, no id used twice, and every head is the last one the log set |
| ReplayHistory.Verifier.ReplayLog | src/super_scientist/application/workspace_integrity.py:1050-1991 | The loop that fills the dictionaries in place succeeds exactly when the replay does, with the same contents |
| ReplayHistory.Verifier.ReplayRecord | src/super_scientist/application/workspace_integrity.py:1059-1954 | One round of the loop: succeeds exactly when the record applies, with the same contents |
| ReplayHistory.Verifier.ReplayTransition | src/super_scientist/application/workspace_integrity.py:1920-1954 | An accepted policy transition projects its run, audit and measurement and is queued for the second policy replay |
| ReplayHistory.RequireProjections | src/super_scientist/application/workspace_integrity.py:961-2331 | Holds exactly when the log replays and every modelled table, head, policy and the active pointer agree with it |
| ReplayHistory.VerifyWorkspace | src/super_scientist/application/workspace_integrity.py:655-758 | Valid exactly when the transaction check, the id lookups and the projection check all pass |
| ReplayHistory.VerifiedHistories | src/super_scientist/application/workspace_integrity.py:1100-1176 | In a verified workspace a run's plan versions are 1 to n, its progress head is the greatest event by plan version, time and id, and each trail is one chain of all its versions |
| ReplayHistory.VerifiedPolicyHistory | src/super_scientist/application/workspace_integrity.py:2956-3043 | In a verified workspace every record was governed by the candidate of the last accepted transition before it, the active pointer is what the last one left, every rollback target was in force before, and the registry is what was ever in force |
| ReplayHistory.SuccessionsFormOnePath | src/super_scientist/application/workspace_integrity.py:1882-1919 | Accepted evaluator successions form one path from the evaluator that was the only root at the first one to the head, each continuing where the last one ended |
| ProgressReplay.PlanVersionsAreContiguous | src/super_scientist/application/workspace_integrity.py:1100-1134 | The plans of a run have the versions 1 to n, each once |
| ProgressReplay.NextVersionContiguous | src/super_scientist/application/workspace_integrity.py:1108-1116 | Admitting only the greatest version plus one keeps every run's versions without gap or repetition |
| ProgressReplay.EventKeepsSound | src/super_scientist/domain/progress/calculations.py:83-102 | An event that advances the head becomes the greatest event of its run, and every other head stays greatest |
| ProgressReplay.ProgressTables.CreateRun | src/super_scientist/application/workspace_integrity.py:1076-1082 | Adds the run under its own governing policy and a free id, or fails |
| ProgressReplay.ProgressTables.AppendRunEvent | src/super_scientist/application/workspace_integrity.py:1083-1099 | Adds the event to a known run and moves the run head to it, or fails |
| ProgressReplay.ProgressTables.GreatestVersion | src/super_scientist/application/workspace_integrity.py:1108-1116 | The scan finds the greatest version among the run's plans, or 0 |
| ProgressReplay.ProgressTables.RecordPlan | src/super_scientist/application/workspace_integrity.py:1100-1134 | Adds the plan and its own subtasks exactly when the plan continues the run, or fails |
| ProgressReplay.ProgressTables.AppendEvent | src/super_scientist/application/workspace_integrity.py:1135-1176 | Adds the event and moves the head exactly when run, plan and subtask fit and the event advances the head |
| ProgressReplay.ProgressTables.EventAdvancesHead | src/super_scientist/domain/progress/calculations.py:83-112 | The scan decides whether the event targets the run's greatest plan and is later than the head |
| TrailReplay.TrailIsOneChain | src/super_scientist/application/workspace_integrity.py:1416-1450 | A trail is one chain from version 1 to its head that holds all its versions, each linked to the one before through its parent and through its claim's parent |
| TrailReplay.VersionKeepsSound | src/super_scientist/application/workspace_integrity.py:1416-1561 | Admitting only a first version or one that continues the head and its claim keeps every trail linked |
| TrailReplay.TrailTables.RecordEvidence | src/super_scientist/application/workspace_integrity.py:1059-1061 | Adds evidence under a free id, or fails |
| TrailReplay.TrailTables.RecordClaim | src/super_scientist/application/workspace_integrity.py:1062-1075 | Adds a claim version under a free key, or fails |
| TrailReplay.TrailTables.RecordVersion | src/super_scientist/application/workspace_integrity.py:1416-1561 | Adds the version and its rows and moves the trail head exactly when the version continues the trail and all ids are free |
| EvaluatorReplay.SuccessionExtendsPath | src/super_scientist/application/workspace_integrity.py:1882-1919 | An accepted succession starts the path at the only root or extends it from the head; a refused one leaves it alone |
| EvaluatorReplay.EvaluatorTables.RecordAudit | src/super_scientist/application/workspace_integrity.py:1848-1860 | Adds the audit under its own governing policy and a free id, or fails |
| EvaluatorReplay.EvaluatorTables.RecordMeasurement | src/super_scientist/application/workspace_integrity.py:2932-2953 | Adds a measurement whose run and audit are known, or fails |
| EvaluatorReplay.EvaluatorTables.ProposeVersion | src/super_scientist/application/workspace_integrity.py:1869-1881 | Adds the evaluator version under its own governing policy and a free id, or fails |
| EvaluatorReplay.EvaluatorTables.DecideSuccession | src/super_scientist/application/workspace_integrity.py:1882-1919 | Records the decision and, when accepted, moves the head exactly when it continues the head or starts at the only root |
| HarnessReplay.HarnessKeepsSound | src/super_scientist/application/workspace_integrity.py:2334-2540 | Every harness step keeps all references resolved: observations name a manifest, a task of it and a budget of its campaign, metrics belong to the observation that announced them, decisions name known metrics and confounds, heads name decisions of their campaign |
| HarnessReplay.HarnessTables.CreateCampaignRows | src/super_scientist/application/workspace_integrity.py:2355-2397 | Adds the campaign, its manifests and its budgets exactly when all ids are free and every governing hash fits |
| HarnessReplay.HarnessTables.Replay | src/super_scientist/application/workspace_integrity.py:2334-2540 | The in-place replay of one harness proposal does exactly what the specification step does |
| ReplayTables.AddRowsExactly | src/super_scientist/application/workspace_integrity.py:3141-3148 | A loop of unique additions succeeds exactly when all keys are new and pairwise different, and then has added exactly those rows |
| PolicyReplay.RequireHistoricalSequence | src/super_scientist/application/workspace_integrity.py:3008-3043 | The loop with its active hash decides the first policy replay |
| PolicyReplay.HistoricalExactly | src/super_scientist/application/workspace_integrity.py:3008-3043 | The first replay passes exactly when every record was governed by the policy then in force, transitions continue it with a policy registered as it stands, and the active pointer is what the last one left |
| PolicyReplay.RequirePolicyProjection | src/super_scientist/application/workspace_integrity.py:2956-3005 | The loop with its expected registry decides the second policy replay |
| PolicyReplay.RebuildFollows | src/super_scientist/application/workspace_integrity.py:2974-2996 | The second replay carries the same policy in force as the first and a registry of exactly the policies ever in force, as long as every rollback target was one of them |
| PolicyReplay.SecondReplayExactly | src/super_scientist/application/workspace_integrity.py:2956-3043 | After the first replay the second starts from the same policy and adds exactly three demands: no hash registered twice, rollback targets in force before, and no registered policy that was never in force |
| PolicyReplay.LogDeterminesPolicies | src/super_scientist/application/workspace_integrity.py:2956-3043 | Two decoded registries that pass for the same log with a transition are the same registry: the policies ever in force |
| AuditLog.RequireConsistency | src/super_scientist/application/workspace_integrity.py:913-958 | The check with its key set and its counter decides consistency of transactions and audit records |
| AuditLog.ConsistentIsOneForOne | src/super_scientist/application/workspace_integrity.py:913-958 | With pairwise different keys the check holds exactly when the persisted records and the transactions are equal as multisets of keys, no unpersisted record names a transaction, and accepted records are persisted |
| AuditLog.UniqueIdsDistinct | src/super_scientist/application/workspace_integrity.py:699-701 | Unique proposal ids give pairwise different keys |
| AuditLog.DuplicateRowsPass | src/super_scientist/application/workspace_integrity.py:926-950 | Without unique ids the check would pass a transaction stored twice |
| AuditLog.RecordFinds | src/super_scientist/application/workspace_integrity.py:699-706 | Every persisted record's lookup by proposal id succeeds and finds the transaction with the record's own key |
| AuditLog.AcceptedInOrderPermutes | src/super_scientist/application/workspace_integrity.py:699-706 | The accepted transactions in audit order are a permutation of all accepted transactions |
| AuditLog.AcceptedInAuditOrder | src/super_scientist/application/workspace_integrity.py:699-706 | The i-th result is the stored transaction of the i-th record that takes effect |
| WorkspaceExchange.ReplayOrders | src/super_scientist/application/workspace_exchange.py:670-683 | Numbers the persisted records in audit order, and raises exactly when a proposal id repeats |
| WorkspaceExchange.Repositories.Audit | src/super_scientist/application/transactions/coordinator.py:852-915 | Appends one hash-linked event that says whether the decision is the stored one |
| WorkspaceExchange.Repositories.Submit | src/super_scientist/application/transactions/coordinator.py:372-456 | A retained key replays or is refused with an audited conflict; a fresh one is decided, stored and audited; a replay that rebuilds another event raises |
| WorkspaceExchange.Repositories.ReplayRecord | src/super_scientist/application/workspace_exchange.py:494-531 | One round of the replay loop: submit, then count the answer as imported, replayed or in conflict, or raise |
| WorkspaceExchange.Repositories.ReplayRecords | src/super_scientist/application/workspace_exchange.py:477-537 | The loop over the records in replay order |
| WorkspaceExchange.Repositories.CommitBundle | src/super_scientist/application/workspace_exchange.py:424-474 | Prepare, replay, and unless there are conflicts rebuild the export and compare it; an error leaves the tables as they were |
| WorkspaceExchange.Repositories.CommitConflicts | src/super_scientist/application/workspace_exchange.py:540-588 | Submits again only the records that conflicted in the preflight, and rolls back unless the same conflicts come back |
| WorkspaceExchange.Repositories.ImportBundle | src/super_scientist/application/workspace_exchange.py:323-421 | Preflight in a temporary workspace, then the conflicts alone or the commit the preflight predicted |
| ExchangeProofs.RunIsSound | src/super_scientist/application/transactions/coordinator.py:458-915 | Every workspace built by any sequence of submissions is exactly what its persisted audit events say: transactions, accepted history, policies, active pointer, unique keys, and every decision the handler's own |
| ExchangeProofs.StoredNeverConflicts | src/super_scientist/application/transactions/coordinator.py:416-520 | A stored decision names its proposal and is never one of the coordinator's own two refusals of a reused key, whatever codes the handlers use |
| ExchangeAnswers.RetainedKeyAnswers | src/super_scientist/application/transactions/coordinator.py:372-456 | A submission under a retained key replays exactly when the retained transaction is the record's own (by content hash, id, decision, fingerprint and audit event; for a legacy record by id and fingerprint); otherwise one unpersisted refusal is audited and nothing is stored |
| ExchangeAnswers.DirectKeyAnswers | src/super_scientist/application/transactions/coordinator.py:498-521 | A direct submission under a retained key replays exactly the same content and fingerprint, and is refused and audited otherwise |
| ExchangeAnswers.NewKeyAnswers | src/super_scientist/application/transactions/coordinator.py:522-650 | A new key is refused for another policy, then for a known id, and else decided; an unknown id is stored with its event, an accepted decision takes effect, a known id is only audited |
| ExchangeAnswers.NewRecordAnswers | src/super_scientist/application/transactions/coordinator.py:436-456 | A record under a new key gets the same answer, and raises exactly when the answer is the expected one but the rebuilt transaction or event is not the record's |
| ExchangeProofs.OneEventMatches | src/super_scientist/application/transactions/coordinator.py:1322-1357 | The audit holds exactly one event for a retained record |
| ExchangeProofs.SortingRoundTrips | src/super_scientist/application/workspace_exchange.py:264-288 | Sorting a log by identity for the bundle and by replay order for the import gives back the log |
| ExchangeProofs.ExportKeepsAuditOrder | src/super_scientist/application/workspace_exchange.py:250-320 | Exporting succeeds, names the first policy, and the bundle replays in exactly the audit order under registered policies |
| ExchangeProofs.ReimportChangesNothing | src/super_scientist/application/workspace_exchange.py:424-537 | Importing a workspace's own export replays every record and changes nothing |
| ExchangePrefix.SubmissionOutcome | src/super_scientist/application/transactions/coordinator.py:372-456 | A submission replays and changes nothing, audits a refusal, or records one transaction with its event |
| ExchangePrefix.ImportGrows | src/super_scientist/application/workspace_exchange.py:477-537 | Replaying any records only appends to the stored and audit logs, by exactly what was counted as imported or in conflict, at readings of the clock |
| ExchangePrefix.InOrderAt | src/super_scientist/application/workspace_exchange.py:182-215 | In replay order the i-th record of a canonical bundle has order i |
| ExchangePrefix.MatchedInOrder | src/super_scientist/application/workspace_exchange.py:622-650 | Matching record by record in the bundle is matching position by position in the log |
| ExchangePrefix.VerifiedImportExtendsTarget | src/super_scientist/application/workspace_exchange.py:424-537 | A verified import of any canonical bundle, forged or not: the target's log was an initial segment of the bundle's in replay order, replayed counts exactly that segment and imported exactly the rest |
| ExchangeReproduction.CleanSubmission | src/super_scientist/application/transactions/coordinator.py:372-456 | Submitting the next record of a clean log appends that very event |
| ExchangeReproduction.CleanBundleCommits | src/super_scientist/application/workspace_exchange.py:424-537 | Committing a workspace's export into any prefix of its persisted events, when the rest is clean for the clock, replays the prefix, imports the rest and rebuilds the whole persisted log |
| ExchangeReproduction.ExportIsCanonical | src/super_scientist/application/workspace_exchange.py:182-215 | The exported bundle passes its own validators |
| ExchangeReproduction.HashPlacesEvent | src/super_scientist/kernel/audit/chain.py:26-56 | In hash-linked logs a persisted event with the hash of another log's i-th event is at position i as well |
| ExchangeReproduction.VerifiedMeansReproduced | src/super_scientist/application/workspace_exchange.py:424-537 | A verified commit into a target without refusals means that the source was clean from there on for the clock, both started from the same policy, and the result is the source's persisted log event for event |
| ExchangeImport.CloneVerifiesExactly | src/super_scientist/application/workspace_exchange.py:384-421 | An export is rebuilt from nothing exactly when its log is clean: persisted events first, each recorded at the clock's reading for its place under the policy then active; what is rebuilt is the persisted log |
| ExchangeImport.StagedExactly | src/super_scientist/application/workspace_exchange.py:362-407 | The preflight clone succeeds exactly when the target knows the first policy and its log is clean for the clone's clock; it holds the target's persisted events alone |
| ExchangeImport.UncleanTargetRefuses | src/super_scientist/application/workspace_exchange.py:384-421 | A target whose log is not clean refuses every bundle |
| ExchangeImport.RefusalThenTransactionEndsImports | src/super_scientist/application/workspace_exchange.py:384-421 | Once a refusal has been audited, the next stored transaction puts an end to imports into that workspace |
| ExchangeImport.ImportSucceedsExactly | src/super_scientist/application/workspace_exchange.py:323-537 | A whole import of an export verifies exactly when the target is clean for the clone's clock, the missing records are clean for the preflight's and the commit's, both started from the same policy and the source continues the target; then it replays the target's transactions, imports the missing ones and leaves the source's persisted log |
| ExchangeImport.ConflictFreeImportExtendsTarget | src/super_scientist/application/workspace_exchange.py:323-537 | A conflict-free import of any canonical bundle: the target was clean, its log is an initial segment of the bundle's, and the counts say so |
| ExchangeImport.ConflictingImportOnlyRefuses | src/super_scientist/application/workspace_exchange.py:540-588 | An import that meets conflicts commits refusals only: no policy, no active pointer and no accepted decision changes, and the audit grows by at most one event per conflict |
| ExchangeAnswers.RetainedKeyCounts | src/super_scientist/application/workspace_exchange.py:494-531 | A record under a retained key is replayed, in conflict, anticipated or makes the import raise, by whether the retained transaction is its own and what it expects |
| ExchangeAnswers.ChangedContentConflicts | src/super_scientist/application/workspace_exchange.py:494-531 | Content that changed under a retained key and was accepted elsewhere conflicts |
| ExchangeAnswers.ChangedDecisionForbidden | src/super_scientist/application/workspace_exchange.py:494-531 | The same content under another decision is never a conflict: it makes the import raise |
| ExchangeAnswers.NewRecordCounts | src/super_scientist/application/workspace_exchange.py:494-531 | A record under a new key is imported on the expected answer, a conflict when a key or identity exists, and raises otherwise |
| ExchangeAnswers.RetainedImport | src/super_scientist/application/workspace_exchange.py:477-537 | Replaying records of retained keys audits one refusal for each that conflicts, counts the rest as replayed, and changes nothing else |
| ExchangeAnswers.RetainedKeysImport | src/super_scientist/application/workspace_exchange.py:323-588 | A whole import of records under retained keys, at least one with other content, reports exactly those conflicts in replay order, audits one refusal for each and changes nothing else |
| ExchangeAnswers.ForbiddenRaises | src/super_scientist/application/workspace_exchange.py:494-531 | A record that claims retained content under another decision makes the whole import raise |
| ExchangeAnswers.ExportSays | src/super_scientist/application/workspace_exchange.py:250-320 | An export names the first and the active policy, all policies and the table listings, and holds by id one record for each persisted event with its content, decision, fingerprint and place |
| ExchangeAnswers.CommitVerifiesExactly | src/super_scientist/application/workspace_exchange.py:424-474 | A replay without conflicts is committed exactly when the result exports the bundle again, up to the intents that legacy records gain |
| ExchangeAnswers.PreparesExactly | src/super_scientist/application/workspace_exchange.py:916-934 | A commit starts in a workspace that knows the first policy or in an empty one that takes it over |
| ArtifactTransfer.FileStore.CopyOne | src/super_scientist/application/workspace_exchange.py:948-962 | One copy, recorded as created whether or not it completes |
| ArtifactTransfer.FileStore.Transfer | src/super_scientist/application/workspace_exchange.py:935-970 | On success the files are the prior ones plus every reference, each new file under its own digest; after a caught error the files are what they were, exactly unless the failing copy misplaced its bytes |
| ArtifactTransfer.StopsExactly | src/super_scientist/application/workspace_exchange.py:935-970 | A transfer stops at the first artifact that does not arrive with the referenced digest and size, and completes when all do |
| ArtifactTransfer.FileStore.TransferAndCommit | src/super_scientist/application/workspace_exchange.py:434-474 | A commit that raises in any way after the transfer leaves exactly the files that were there before |
| ArtifactTransfer.FileStore.RemoveCreated | src/super_scientist/application/workspace_exchange.py:968-970 | Removes exactly the created paths |
| ArtifactTransfer.RehashingSourceNeverMisplaces | src/super_scientist/application/workspace_exchange.py:948-962 | A source that rehashes what it reads never misplaces a file, so there a caught failure always restores the files |
| ArtifactTransfer.ForeignBytesStayBehind | src/super_scientist/application/workspace_exchange.py:948-970 | A source that answers with other bytes leaves a stray file behind |
| CollaborationService.EngineIsLawful | src/super_scientist/domain/collaboration/engine.py:189-377 | The concrete engine refuses to advance a terminated state and accepts a request only as the handlers do |
| CollaborationService.RebuildState | src/super_scientist/application/collaboration/service.py:407-454 | The loop over the history with its pending request and three id sets computes the rebuild |
| CollaborationService.RebuildSnoc | src/super_scientist/application/collaboration/service.py:407-454 | Rebuilding a history with one more record is one step from rebuilding the history |
| CollaborationService.SuccessIsPrefixClosed | src/super_scientist/application/collaboration/service.py:407-454 | Every initial segment of a history that rebuilds rebuilds |
| CollaborationService.RebuildRetains | src/super_scientist/application/collaboration/service.py:407-454 | A rebuilt history alternates requests and contributions, a request is pending exactly when one is unanswered, ids are distinct within each kind, and the state holds exactly the recorded items in order |
| CollaborationService.RebuildValidates | src/super_scientist/domain/collaboration/models.py:980-1110 | A session with a valid envelope only ever rebuilds to states the batch validator accepts |
| CollaborationService.VerifyLog | src/super_scientist/application/cognitive/integrity.py:475-771 | The verifier's loop over the accepted transactions, for collaboration |
| CollaborationService.ExpectedCollaboration | src/super_scientist/application/cognitive/integrity.py:475-878 | The same loop with the final rebuild of every session |
| CollaborationService.TerminatedStops | src/super_scientist/application/collaboration/service.py:293-356 | No contribution or topology event rebuilds on a terminated session |
| CollaborationService.RequestAgrees | src/super_scientist/application/collaboration/service.py:196-247 | The request handler accepts exactly when the verifier does, and both keep the same histories |
| CollaborationService.LaterAgrees | src/super_scientist/application/collaboration/service.py:269-357 | The contribution and topology handlers accept exactly when the verifier does |
| CollaborationService.StepAgrees | src/super_scientist/application/collaboration/service.py:94-405 | One entry is accepted by its handler exactly when the verifier accepts it and it obeys the log's own rules |
| CollaborationService.AcceptorsAgree | src/super_scientist/application/cognitive/integrity.py:649-771 | The handlers accept a whole log exactly when the verifier does and the log obeys its rules (authority, fresh cohort and session ids, terminations that name a reason) |
| CollaborationService.TerminationFreezesHistory | src/super_scientist/application/collaboration/service.py:369-405 | Once a termination is recorded nothing accepted later extends the session's history or changes the reason |
| CollaborationService.FinalPassSucceeds | src/super_scientist/application/cognitive/integrity.py:870-878 | The verifier's final pass over all sessions never fails after an accepted run |
| CollaborationService.VerifierAcceptsEmptyTermination | src/super_scientist/application/cognitive/integrity.py:746-771 | The verifier takes a termination without a reason for a session that can still go on; the handler refuses it |
| CollaborationService.OnlineHistoriesVerify | src/super_scientist/application/cognitive/integrity.py:649-771 | For the real engine: every log the handlers wrote passes the verifier and its final pass, both hold the same sessions and histories, and every stored session rebuilds to a state the batch validator accepts |
| CollaborationLaws.NextPeerExactly | src/super_scientist/domain/collaboration/models.py:1423-1449 | A peer comes next exactly when no limit is reached and it is the first on the roster that is active, has a turn left, and is reached by an enabled edge from the last contributor |
| CollaborationLaws.TerminationExactly | src/super_scientist/domain/collaboration/models.py:1452-1530 | A session ends for a reason exactly when the limit behind it is reached in the histories and no limit of higher priority is |
| CollaborationLaws.DepthExactly | src/super_scientist/domain/collaboration/engine.py:176-187 | The depth of a contribution is the length of the longest chain of its ancestors |
| CollaborationLaws.ContributionAccepted | src/super_scientist/domain/collaboration/engine.py:189-298 | From a valid state an exchange is built exactly when the request may be asked, the contribution answers it within scope, lineage and budget, and the request id is new |
| CollaborationLaws.RequestAccepted | src/super_scientist/application/collaboration/service.py:196-247 | The request handler accepts exactly a request to the next peer, within scope, stating what is left of every resource, with a new id, when none is waiting |
| CollaborationLaws.AnswerAccepted | src/super_scientist/application/collaboration/service.py:269-305 | The contribution handler accepts exactly an answer to the waiting request that still fits the session |
| CollaborationLaws.TopologyAccepted | src/super_scientist/domain/collaboration/engine.py:300-377 | From a valid state a topology event is built exactly when the session goes on, changes are left, and its operation has the effect on peers and edges that its hashes name |
| CollaborationLaws.EventAccepted | src/super_scientist/application/collaboration/service.py:319-357 | The topology handler accepts exactly a new event that may reshape the session |
| CollaborationLaws.TerminationAccepted | src/super_scientist/application/collaboration/service.py:369-405 | The termination handler records exactly the reason of the first limit reached, once |
| CollaborationLaws.SessionAccepted | src/super_scientist/application/collaboration/service.py:94-131 | The session handler accepts exactly a new session under the active policy, of a recorded cohort, with a valid envelope |
| CollaborationLaws.RebuiltTopologiesFollow | src/super_scientist/domain/collaboration/models.py:1382-1421 | In every rebuilt session each topology is the effect of its event on the one before, and enables declared edges between active peers only |
| CollaborationLaws.EveryTurnFollows | src/super_scientist/domain/collaboration/models.py:1423-1449 | In every rebuilt session a contribution comes from the first peer that may follow in the topology of that moment; an edge enabled then leads to it from the previous contributor |
| CollaborationLaws.RebuiltObserves | src/super_scientist/domain/collaboration/models.py:1320-1380 | Every rebuilt state has one cycle and one semantic digest for each transition, the last ones over exactly what the histories say |
| CollaborationValidation.InitialValidates | src/super_scientist/domain/collaboration/engine.py:30-86 | The initial state of a valid session passes the batch validator |
| CollaborationValidation.ReplayTracks | src/super_scientist/domain/collaboration/models.py:1112-1270 | The validator's deterministic replay of the transition journal tracks the stored histories position by position |
| CollaborationValidation.JournalExtends | src/super_scientist/domain/collaboration/models.py:1112-1270 | One more transition, consistently recorded, keeps the journal authentic |
| CollaborationValidation.ValidTotals | src/super_scientist/domain/collaboration/models.py:1112-1270 | In a valid state the journal replay ends in the totals the engine works from, and leaves room to go on exactly when the engine sees no termination |
| CollaborationValidation.AdvanceExactly | src/super_scientist/domain/collaboration/engine.py:189-298 | From a valid state an exchange that passes the engine's checks is built exactly when its request id is new: no other validator check can fire |
| CollaborationValidation.ApplyTopologyExactly | src/super_scientist/domain/collaboration/engine.py:300-377 | From a valid state a topology event is built exactly when it passes the engine's checks, and the result is valid |
| SnapshotCurrency.CurrentCharacterised | src/super_scientist/application/cognitive/integrity.py:257-285 | The check computes exactly: retained before now, exactly one such snapshot, and the latest of its family |
| SnapshotCurrency.AtMostOneCurrentPerFamily | src/super_scientist/application/cognitive/integrity.py:257-285 | Two different snapshots current at the same sequence never share a family |
| SnapshotCurrency.CurrencyIsAnInterval | src/super_scientist/application/cognitive/integrity.py:257-285 | The sequences at which a snapshot is current form one interval |
| SnapshotCurrency.SupersededForever | src/super_scientist/application/cognitive/integrity.py:257-285 | A snapshot that was current and no longer is never is again |
| SnapshotCurrency.CurrencyEndsExactly | src/super_scientist/application/cognitive/integrity.py:257-285 | A current snapshot stays current over the next sequence unless an entry retained then displaces it |
| EvidenceIndex.CappedTableAnswersLikeScan | src/super_scientist/application/cognitive/integrity.py:936-990 | A table that keeps two matches per key resolves every cell as a scan of all additions does |
| EvidenceIndex.AmbiguityIsPermanent | src/super_scientist/application/cognitive/integrity.py:936-990 | An ambiguous key stays ambiguous and a resolved key is never bound to another pair |
| EvidenceIndex.ResolvesExactly | src/super_scientist/application/cognitive/integrity.py:936-990 | A cell resolves exactly when one addition binds it: protocol, full coordinate, assessment of the trace, and receipt |
| EvidenceIndex.IndexBuilder.Add | src/super_scientist/application/cognitive/integrity.py:940-974 | Adding keeps the table a faithful two-per-key summary of all additions |
| EvidenceIndex.IndexBuilder.Resolve | src/super_scientist/application/cognitive/integrity.py:976-990 | Answers as the scan of everything added would |
| EvidenceIndex.IndexBuilder.Freeze | src/super_scientist/application/cognitive/integrity.py:992-997 | The frozen index answers for the additions made before the freeze, whatever the builder does later |
| AdmissionLineage.AdmissionDatabase.Insert | alembic/versions/0005_hypotheses_and_representations.py:227-325 | A plain INSERT is stored exactly when every key, check, foreign key and BEFORE INSERT trigger lets it through, and changes nothing otherwise |
| AdmissionLineage.FullRange | alembic/versions/0005_hypotheses_and_representations.py:229-277 | n distinct positions below n are all of them |
| AdmissionLineage.OwnedRowsAreClosed | alembic/versions/0005_hypotheses_and_representations.py:290-305 | Once a decision exists the bounds trigger and the key refuse every further row for it |
| AdmissionLineage.ReachableIsSound | alembic/versions/0005_hypotheses_and_representations.py:227-325 | In every reachable database stored decisions are materialised by their rows and every chain of rows is contiguous |
| AdmissionLineage.AdmissionRowsEqualTheArray | alembic/versions/0005_hypotheses_and_representations.py:229-305 | In every reachable database a decision's rows equal its array position by position, and no further row for it can ever be inserted |
| AdmissionLineage.CommittedReferencesAreTheArrays | alembic/versions/0005_hypotheses_and_representations.py:904-916 | A committed reference table holds nothing but the arrays of the stored decisions |
| AdmissionLineage.AdmissionVersionsAreContiguous | alembic/versions/0005_hypotheses_and_representations.py:626-700 | With n > 0 revisions, position i results in the first prior version plus i + 1, the decision's version is the first prior version plus n, so n is at most version - 1, and all resulting versions differ |
| AdmissionLineage.InsertAcceptsExactly | alembic/versions/0005_hypotheses_and_representations.py:227-325 | In every reachable database an INSERT is accepted exactly for a new version, a revision between neighbouring versions, the next row of an unfinished admission, or the admission its rows add up to |
| AdmissionLineage.LineageRuleLostExactly | alembic/versions/0005_hypotheses_and_representations.py:280-287 | The rule that an admission may not omit its revisions is lost by exactly one kind of statement: a revision inserted later that produces an already admitted version |
| AdmissionLineage.LateRevisionLosesLineageRule | alembic/versions/0005_hypotheses_and_representations.py:280-287 | Four plain inserts that lose the rule |
| PolicyLedger.Ledger.Append | src/super_scientist/quality/policy_records.py:125-142 | Stores a record under its digest exactly when the append succeeds; what the stores are afterwards in every case |
| PolicyLedger.Ledger.AdmitPersisted | src/super_scientist/quality/policy_records.py:150-179 | Admits a persisted approval exactly when its stored proposal, measurement and audit support it |
| PolicyLedger.Ledger.VerifyApproval | src/super_scientist/quality/policy_records.py:144-148 | Verifies exactly when the approval reads back and is supported |
| PolicyLedger.VerifiedForever | src/super_scientist/quality/policy_records.py:125-230 | An approval that verifies once verifies after every later sequence of appends, failed or not |
| PolicyLedger.FirstWriterWins | src/super_scientist/quality/policy_records.py:125-142 | An append that reuses a stored kind and id with other content fails and changes nothing, at any later time |
| PolicyLedger.ReachableApprovalsSupported | src/super_scientist/quality/policy_records.py:291-362 | Every stored approval has a stored proposal, measurement and audit with matching hashes, ids and independent authority |
| PolicyLedger.AppendedApprovalVerifiesExactly | src/super_scientist/quality/policy_records.py:125-210 | An admitted append really verifies exactly when the artifact already stored under its digest, if any, holds its own bytes |
| PolicyLedger.PairwiseIndependentExactly | src/super_scientist/quality/policy_records.py:291-362 | In an admitted chain all authorities are pairwise independent exactly when evaluator and proposer are |
| PolicyLedger.AdmittedChainVerifies | src/super_scientist/quality/policy_records.py:125-210 | Every admitted chain of valid records can be stored in an empty ledger, supporting records first, and its approval then verifies and reads back |
| PolicyLedger.SelfEvaluationIsAdmitted | src/super_scientist/quality/policy_records.py:291-362 | A proposer may evaluate its own proposal: with auditor and human independent of it and of each other, the ledger stores the whole chain and verifies the approval |
| PolicyChain.IndependentExactly | src/super_scientist/domain/identity.py:53-67 | Two actors are independent exactly when their ids differ and they declare no provider, model, adapter or configuration in common |
| PolicyChain.ReadExactly | src/super_scientist/quality/policy_records.py:181-230 | A record reads back exactly when its file holds its bytes, they parse to it, and the artifact under their digest holds the same bytes |
| PolicyChain.VerifiesExactly | src/super_scientist/quality/policy_records.py:291-362 | An approval verifies exactly when it and the three records it names read back with matching ids and digests, measure the proposal, were passed and accepted by the approving human, and their authorities share nothing |
| PolicyChain.UnsupportedApprovalRefused | src/super_scientist/quality/policy_records.py:125-142 | An approval whose stored chain breaks any of these raises and leaves the stores as they were |
| PolicyChain.AppendSucceedsExactly | src/super_scientist/quality/policy_records.py:125-142 | After any appends exactly a valid record may be stored that rests on what it names, if it is an approval, and changes no stored record of its kind and id |
| HandbookPrinter.BacktickRuns | src/super_scientist/handbook/builder.py:884-895 | The accumulator loop finds the maximal backtick runs, left to right, or one empty run |
| HandbookPrinter.CodeSpan | src/super_scientist/handbook/builder.py:877-881 | Prints the value between delimiters one longer than its longest backtick run, padded when it touches an edge |
| HandbookPrinter.SpanShape | src/super_scientist/handbook/builder.py:877-881 | A printed span is the value between fences one backtick longer than any run in it, with spaces exactly when it begins or ends with a backtick or a space |
| HandbookPrinter.PunctuationExactly | src/super_scientist/handbook/builder.py:871-874 | The escaped characters are the graphic ASCII characters other than letters and digits |
| HandbookPrinter.CloserAfter | src/super_scientist/handbook/builder.py:877-895 | Section 6.1 (Code spans) of CommonMark 0.31.2 finds the intended closing delimiter |
| HandbookPrinter.SpanToken | src/super_scientist/handbook/builder.py:877-895 | A printed span, whatever follows it, is read as one code token |
| HandbookPrinter.CodeSpanReadsBack | src/super_scientist/handbook/builder.py:877-895 | A printed span reads back as exactly the value, padding included, if and only if the value is nonempty, one line and not only spaces |
| HandbookPrinter.EscapeReadsBack | src/super_scientist/handbook/builder.py:871-874 | Un-escaping by section 2.4 (Backslash escapes) of CommonMark 0.31.2 gives back every string |
| HandbookPrinter.LineReadsBack | src/super_scientist/handbook/builder.py:605-655 | Every rendered line of text and spans reads back as exactly its pieces |
| HandbookPrinter.LocationLineIsInjective | src/super_scientist/handbook/builder.py:630-638 | Two location lines with the same text name the same module, symbol and kind |
| HandbookManifest.CanonicalExactly | src/super_scientist/handbook/builder.py:659-679 | Two coherent manifests have the same canonical payload exactly when one is a rearrangement of the other |
| Ordering.StringLeqExactly | src/super_scientist/handbook/builder.py:659-704 | Sorting is by code points: a prefix comes first, otherwise the first differing character decides |
| HandbookManifest.InverseIsUnique | src/super_scientist/handbook/builder.py:682-704 | The inverse relation has only one listing |
| HandbookManifest.RearrangedDeclaresSameRules | src/super_scientist/handbook/builder.py:696-704 | Rearranged manifests declare the same values in every list field, hence the same rule relation |
| HandbookManifest.RearrangedDeclaresSameSources | src/super_scientist/handbook/models.py:84-112 | Rearranged manifests declare the same behaviours for every source binding |
| HandbookManifest.RuleLinks | src/super_scientist/handbook/builder.py:696-704 | The rule links are exactly the inverse of the declared governing rules |
| HandbookDocument.Inspect | src/super_scientist/handbook/builder.py:140-355 | The inspection loop, with each path read once: raises exactly when a declared path escapes the repository, and returns the deduplicated findings, the sorted locations and the hash of every path |
| HandbookDocument.SourceLinks | src/super_scientist/handbook/builder.py:682-693 | The source links are exactly the inverse of the locations, sorted and without repetition |
| HandbookDocument.BuildHandbook | src/super_scientist/handbook/builder.py:121-133 | Raises, fails with the codes of the findings in order, or renders a document whose hashes, entries and link tables are those of the manifest and the inspection |
| HandbookDocument.InspectionPassesExactly | src/super_scientist/handbook/builder.py:140-355 | An inspection has no finding exactly when the commit is the manifest's, every binding is a clean Python source with the declared hash and symbol, and every test file exists |
| HandbookDocument.PassingLocatesExactly | src/super_scientist/handbook/builder.py:299-312 | A passing inspection has a location for each declared binding and for nothing else, with the declared hash and the facts of the named symbol |
| HandbookDocument.BuildSucceedsExactly | src/super_scientist/handbook/builder.py:121-133 | A build succeeds exactly when no path escapes and every declaration holds of the repository; then the source links are the inverse of the declared bindings |
| HandbookDocument.EntriesSay | src/super_scientist/handbook/builder.py:456-531 | A built document has one entry for each behaviour in ascending id order, with its summary, its list values ascending, and exactly the locations of its own bindings by path and symbol |
| HandbookFindings.FindingsExactly | src/super_scientist/handbook/builder.py:140-355 | An inspection reports each defect of the commit, of a binding and of a test path under its own code, once, and nothing else |
| HandbookDocument.InspectionForgetsOrder | src/super_scientist/handbook/builder.py:140-355 | Rearranged manifests get the same findings in the same order, the same locations and the same source hashes |
| HandbookDocument.RenderSeesNormalForm | src/super_scientist/handbook/builder.py:505-531 | Rendering an entry sees only its normal form |
| HandbookDocument.RenderingForgetsOrder | src/super_scientist/handbook/builder.py:456-531 | Rearranging behaviours, bindings and list fields changes nothing in a build: the same error or findings, or the same document with both hashes, every entry and both link tables |
| HandbookMarkdown.LinesArePlain | src/super_scientist/handbook/builder.py:590-656 | Every template line around printable values is well formed for the reader |
| HandbookMarkdown.MarkdownReadsBack | src/super_scientist/handbook/builder.py:590-656 | Splitting the whole text into lines and reading each line's inlines gives back every line of the handbook with every displayed value |
| HandbookMarkdown.BuiltIsPrintable | src/super_scientist/handbook/models.py:14-28 | Every document built from a valid manifest is printable |
| HandbookReading.MarkdownShows | src/super_scientist/handbook/builder.py:590-656 | A reader of the text gets the header and, at each of the four levels, every entry's own values under its own heading, in order |
| HandbookMarkdown.MarkdownIdentifiesManifest | src/super_scientist/handbook/builder.py:590-679 | When no two payloads share a hash, two builds from the same repository have the same Markdown exactly when their manifests are rearrangements of each other, and then they are the same build |

## Left out

- SHA-256 and canonical JSON are uninterpreted functions; injectivity is a hypothesis of the few lemmas that need it (`CollisionFree`, `RoundTrips`).
- SQL engines, files, git, the command line and process plumbing: tables and stores are maps, sequences and sets.
- Field validation, identifier trimming and the imported-pattern firewall.
- AuditReplay: replay of primitives, hypotheses, behavioural rules, configurations, budgets, checkpoints, completions and report bindings; plan shape, trail semantics, receipts and historical authority are an arbitrary verdict on each record, so nothing is claimed about them.
- AuditReplay: the comparison of cognitive and evaluation-extension snapshots, handbook verifications, artifact bindings and deterministic claim checks that follow the replay in `verify_workspace`.
- TrailReplay: a claim version id is the pair it prints, since the text `id:version` is injective; the four row dictionaries are one dictionary keyed by kind.
- TrailReplay: stored claims are read through the histories of their heads; they are one dictionary here.
- HarnessReplay: record fields that no check reads are one text field.
- WorkspaceExchange: a policy is identified with its hash; the projection tables are functions of the accepted history.
- WorkspaceExchange: one clock reading serves a whole submission, where the coordinator reads the clock again for the audit event; readings are indexed by replay order.
- WorkspaceExchange: the integrity check that every submission starts with, handlers that raise instead of deciding, and proposals that cannot be normalised.
- WorkspaceExchange: the bundle hash and the live-path check of the exported JSON.
- ExchangeImport.ImportSucceedsExactly: the transfer of artifacts is modelled separately in ArtifactTransfer.
- CollaborationEngine: exact reals stand for the source's decimal and float amounts of cost, compute and elapsed time; their rounding is not modelled.
- CollaborationService.AcceptorsAgree: the authority check shared by all handlers is a parameter, and the verifier's branch for a run without a current policy binding is not modelled.
- SnapshotCurrency: how snapshot bindings are read from transactions and audit events.
- EvidenceIndex: the projection of a trace and an assessment to a pair is a parameter.
- AdmissionLineage: the list of admissible statuses, content-hash and timestamp checks, `INSERT OR REPLACE`, and NULLs inside JSON arrays.
- PolicyLedger: path containment and regular-file checks; a record path is its kind and id.
- HandbookPrinter: block structure and inline constructs other than code spans and backslash escapes.
- HandbookDocument: parsing, decoding, git and the path rules are fields of a repository tree that does not change during a build; the kinds and line ranges of symbols are what it says.
- HandbookDocument: schema and authority constants, the disclosure levels (selections of the rendered entries), the set of source hashes, and the serialisation to JSON.
- HandbookDocument: the verification of an existing handbook against a new build.
- HandbookMarkdown: block structure; each line is read on its own as inlines, with its list or heading marker as plain characters.
