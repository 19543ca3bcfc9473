/** The hypothesis admission tables of migration 0005: what their keys, checks, foreign keys
    and BEFORE INSERT triggers together keep true of every database built by plain INSERTs. */
module AdmissionLineage {
  import opened Common

  type Id = string

  datatype Version = Version(hypothesisId: Id, version: int, status: string)

  datatype Revision = Revision(
    hypothesisId: Id, priorId: Id, priorVersion: int, resultingId: Id, resultingVersion: int)

  /** A row of the admission-revision reference table; its key is (owner, position). */
  datatype Reference = Reference(revisionId: Id, hypothesisId: Id)

  /** `revisionIds` is the array inside the decision's JSON record, None when it is no array. */
  datatype Decision = Decision(
    hypothesisVersionId: Id, hypothesisId: Id, version: int, status: string,
    terminalId: Option<Id>, terminalPosition: Option<int>, revisionIds: Option<seq<Id>>)

  datatype Tables = Tables(
    versions: map<Id, Version>,
    revisions: map<Id, Revision>,
    references: map<(Id, int), Reference>,
    decisions: map<Id, Decision>)

  const EMPTY := Tables(map[], map[], map[], map[])

  datatype Statement =
    | InsertVersion(id: Id, version: Version)
    | InsertRevision(id: Id, revision: Revision)
    | InsertReference(owner: Id, position: int, reference: Reference)
    | InsertDecision(id: Id, decision: Decision)

  // ---- keys, checks and foreign keys ----

  predicate VersionExists(t: Tables, hypothesisId: Id, versionId: Id, version: int)
  {
    versionId in t.versions && t.versions[versionId].hypothesisId == hypothesisId && t.versions[versionId].version == version
  }

  predicate VersionAdmitted(t: Tables, id: Id, row: Version)
  {
    && id !in t.versions
    && (forall k :: k in t.versions ==> (t.versions[k].hypothesisId, t.versions[k].version) != (row.hypothesisId, row.version))
    && row.version >= 1
  }

  predicate RevisionAdmitted(t: Tables, id: Id, row: Revision)
  {
    && id !in t.revisions
    && VersionExists(t, row.hypothesisId, row.priorId, row.priorVersion)
    && VersionExists(t, row.hypothesisId, row.resultingId, row.resultingVersion)
    && row.priorVersion >= 1 && row.resultingVersion == row.priorVersion + 1
    && row.priorId != row.resultingId
  }

  // ---- triggers ----

  function Positions(t: Tables, owner: Id): set<int>
  {
    set k | k in t.references && k.0 == owner :: k.1
  }

  /** The join both chain clauses make: a previous reference of the same owner whose revision
      ends at the version where this revision starts. */
  predicate Continues(t: Tables, owner: Id, position: int, revisionId: Id, hypothesisId: Id)
  {
    && (owner, position - 1) in t.references
    && var previous := t.references[(owner, position - 1)];
    && previous.hypothesisId == hypothesisId
    && previous.revisionId in t.revisions
    && revisionId in t.revisions
    && var before, current := t.revisions[previous.revisionId], t.revisions[revisionId];
    && before.hypothesisId == hypothesisId
    && current.hypothesisId == hypothesisId
    && before.resultingId == current.priorId
    && before.resultingVersion == current.priorVersion
  }

  /** Trigger `hypothesis_admission_revision_bounds` lets the row through. */
  predicate WithinBounds(t: Tables, owner: Id, position: int, row: Reference)
  {
    owner in t.decisions ==>
      var d := t.decisions[owner];
      && d.hypothesisId == row.hypothesisId
      && d.terminalId.Some? && d.terminalPosition.Some?
      && position <= d.terminalPosition.value
      && (position == d.terminalPosition.value <==> row.revisionId == d.terminalId.value)
  }

  predicate ReferenceAdmitted(t: Tables, owner: Id, position: int, row: Reference)
  {
    && WithinBounds(t, owner, position, row)
    && (position > 0 ==> Continues(t, owner, position, row.revisionId, row.hypothesisId))
    && position >= 0
    && (owner, position) !in t.references
    && (forall k :: k in t.references && k.0 == owner ==> t.references[k].revisionId != row.revisionId)
    && row.revisionId in t.revisions && t.revisions[row.revisionId].hypothesisId == row.hypothesisId
  }

  /** Trigger `hypothesis_admission_revision_completeness` lets the row through. */
  predicate Complete(t: Tables, id: Id, row: Decision)
  {
    && row.revisionIds.Some?
    && var ids := row.revisionIds.value;
    && |Positions(t, id)| == |ids|
    && (forall k :: k in t.references && k.0 == id ==>
          && t.references[k].hypothesisId == row.hypothesisId
          && 0 <= k.1 < |ids|
          && t.references[k].revisionId == ids[k.1])
    && (|ids| == 0 ==> row.terminalId.None? && row.terminalPosition.None?)
    && (|ids| > 0 ==>
          && row.terminalId.Some?
          && row.terminalPosition == Some(|ids| - 1)
          && row.terminalId.value == ids[|ids| - 1]
          && (id, |ids| - 1) in t.references
          && t.references[(id, |ids| - 1)] == Reference(row.terminalId.value, row.hypothesisId))
    && (forall k :: k in t.references && k.0 == id && k.1 > 0 && t.references[k].revisionId in t.revisions ==>
          Continues(t, id, k.1, t.references[k].revisionId, row.hypothesisId))
  }

  /** Trigger `hypothesis_admission_requires_revision_lineage` lets the row through. */
  predicate OmitsNoLineage(t: Tables, row: Decision)
  {
    row.terminalId.None? ==> forall r :: r in t.revisions ==> !Produces(t.revisions[r], row)
  }

  predicate Produces(r: Revision, d: Decision)
  {
    r.hypothesisId == d.hypothesisId && r.resultingId == d.hypothesisVersionId && r.resultingVersion == d.version
  }

  predicate DecisionAdmitted(t: Tables, id: Id, row: Decision)
  {
    && Complete(t, id, row)
    && OmitsNoLineage(t, row)
    && id !in t.decisions
    && VersionExists(t, row.hypothesisId, row.hypothesisVersionId, row.version)
    && t.versions[row.hypothesisVersionId].status == row.status
    && (row.terminalId.Some? ==>
          row.terminalId.value in t.revisions && Produces(t.revisions[row.terminalId.value], row))
    && row.version >= 1
    && ((row.terminalId.None? && row.terminalPosition.None?)
        || (row.terminalId.Some? && (row.terminalPosition.Some? ==> row.terminalPosition.value >= 0)))
  }

  // ---- the state machine ----

  predicate Admitted(t: Tables, s: Statement)
  {
    match s
    case InsertVersion(id, row) => VersionAdmitted(t, id, row)
    case InsertRevision(id, row) => RevisionAdmitted(t, id, row)
    case InsertReference(owner, position, row) => ReferenceAdmitted(t, owner, position, row)
    case InsertDecision(id, row) => DecisionAdmitted(t, id, row)
  }

  /** A refused INSERT aborts and leaves every table as it was. */
  function Apply(t: Tables, s: Statement): Tables
  {
    if !Admitted(t, s) then t
    else
      match s
      case InsertVersion(id, row) => t.(versions := t.versions[id := row])
      case InsertRevision(id, row) => t.(revisions := t.revisions[id := row])
      case InsertReference(owner, position, row) => t.(references := t.references[(owner, position) := row])
      case InsertDecision(id, row) => t.(decisions := t.decisions[id := row])
  }

  function Run(statements: seq<Statement>): Tables
  {
    if statements == [] then EMPTY
    else Apply(Run(statements[..|statements| - 1]), statements[|statements| - 1])
  }

  /** The deferred owner keys, checked when a transaction commits. */
  predicate Committable(t: Tables)
  {
    forall k :: k in t.references ==>
      k.0 in t.decisions && t.decisions[k.0].hypothesisId == t.references[k].hypothesisId
  }

  class AdmissionDatabase {
    var versions: map<Id, Version>
    var revisions: map<Id, Revision>
    var references: map<(Id, int), Reference>
    var decisions: map<Id, Decision>

    function Contents(): Tables
      reads this
    {
      Tables(versions, revisions, references, decisions)
    }

    constructor ()
      ensures Contents() == EMPTY
    {
      versions, revisions, references, decisions := map[], map[], map[], map[];
    }

    method Insert(s: Statement) returns (stored: bool)
      modifies this
      ensures Contents() == Apply(old(Contents()), s)
      ensures stored == Admitted(old(Contents()), s)
    {
      stored := Admitted(Contents(), s);
      if !stored {
        return;
      }
      match s {
        case InsertVersion(id, row) => versions := versions[id := row];
        case InsertRevision(id, row) => revisions := revisions[id := row];
        case InsertReference(owner, position, row) => references := references[(owner, position) := row];
        case InsertDecision(id, row) => decisions := decisions[id := row];
      }
    }
  }

  // ---- what every reachable state keeps ----

  ghost predicate VersionsKeyed(t: Tables)
  {
    forall r :: r in t.revisions ==>
      var row := t.revisions[r];
      && VersionExists(t, row.hypothesisId, row.priorId, row.priorVersion)
      && VersionExists(t, row.hypothesisId, row.resultingId, row.resultingVersion)
      && row.priorVersion >= 1 && row.resultingVersion == row.priorVersion + 1
  }

  /** Each owner's rows fill positions 0, 1, ... without a gap and chain version to version,
      even while the decision that owns them does not exist yet. */
  ghost predicate ReferencesChain(t: Tables)
  {
    forall k :: k in t.references ==>
      && k.1 >= 0
      && t.references[k].revisionId in t.revisions
      && t.revisions[t.references[k].revisionId].hypothesisId == t.references[k].hypothesisId
      && (k.1 > 0 ==> Continues(t, k.0, k.1, t.references[k].revisionId, t.references[k].hypothesisId))
  }

  /** The reference rows of a decision are its revision array, position by position. */
  ghost predicate Materialized(t: Tables, id: Id)
    requires id in t.decisions
  {
    var d := t.decisions[id];
    && d.revisionIds.Some?
    && var ids := d.revisionIds.value;
    && (forall p :: (id, p) in t.references <==> 0 <= p < |ids|)
    && (forall p :: 0 <= p < |ids| ==> t.references[(id, p)] == Reference(ids[p], d.hypothesisId))
  }

  ghost predicate Terminated(t: Tables, id: Id)
    requires id in t.decisions
  {
    var d := t.decisions[id];
    && d.revisionIds.Some?
    && var ids := d.revisionIds.value;
    && VersionExists(t, d.hypothesisId, d.hypothesisVersionId, d.version)
    && (|ids| == 0 ==> d.terminalId.None? && d.terminalPosition.None?)
    && (|ids| > 0 ==>
          && d.terminalId == Some(ids[|ids| - 1])
          && d.terminalPosition == Some(|ids| - 1)
          && ids[|ids| - 1] in t.revisions
          && Produces(t.revisions[ids[|ids| - 1]], d))
  }

  ghost predicate Sound(t: Tables)
  {
    && VersionsKeyed(t)
    && ReferencesChain(t)
    && forall id :: id in t.decisions ==> Materialized(t, id) && Terminated(t, id)
  }

  function Range(n: nat): (r: set<int>)
    ensures |r| == n
    ensures forall i :: i in r <==> 0 <= i < n
  {
    if n == 0 then {} else Range(n - 1) + {n - 1}
  }

  /** Pigeonhole: n distinct positions below n are all of them. */
  lemma FullRange(positions: set<int>, n: nat)
    requires positions <= Range(n) && |positions| == n
    ensures positions == Range(n)
  {
    var missing := Range(n) - positions;
    assert |Range(n)| == |positions| + |missing| by {
      assert Range(n) == positions + missing;
    }
  }

  lemma CompleteMaterializes(t: Tables, id: Id, row: Decision)
    requires Complete(t, id, row)
    ensures Materialized(t.(decisions := t.decisions[id := row]), id)
  {
    var ids := row.revisionIds.value;
    assert Positions(t, id) <= Range(|ids|);
    FullRange(Positions(t, id), |ids|);
    forall p
      ensures (id, p) in t.references <==> 0 <= p < |ids|
    {
      assert (id, p) in t.references <==> p in Positions(t, id);
    }
  }

  /** Once a decision owns its rows, the triggers and the key refuse every further row for it. */
  lemma OwnedRowsAreClosed(t: Tables, owner: Id, position: int, row: Reference)
    requires owner in t.decisions && Materialized(t, owner) && Terminated(t, owner)
    ensures !ReferenceAdmitted(t, owner, position, row)
  {}

  /** Nothing that is stored is ever changed or removed. */
  ghost predicate Grows(t: Tables, t': Tables)
  {
    && (forall k :: k in t.versions ==> k in t'.versions && t'.versions[k] == t.versions[k])
    && (forall k :: k in t.revisions ==> k in t'.revisions && t'.revisions[k] == t.revisions[k])
    && (forall k :: k in t.references ==> k in t'.references && t'.references[k] == t.references[k])
    && (forall k :: k in t.decisions ==> k in t'.decisions && t'.decisions[k] == t.decisions[k])
  }

  lemma ApplyGrows(t: Tables, s: Statement)
    ensures Grows(t, Apply(t, s))
  {}

  lemma GrowthKeepsChains(t: Tables, s: Statement)
    requires VersionsKeyed(t) && ReferencesChain(t)
    ensures VersionsKeyed(Apply(t, s)) && ReferencesChain(Apply(t, s))
  {
    var t' := Apply(t, s);
    ApplyGrows(t, s);
    forall k | k in t'.references
      ensures k.1 >= 0 && t'.references[k].revisionId in t'.revisions
      ensures t'.revisions[t'.references[k].revisionId].hypothesisId == t'.references[k].hypothesisId
      ensures k.1 > 0 ==> Continues(t', k.0, k.1, t'.references[k].revisionId, t'.references[k].hypothesisId)
    {
      if k in t.references {
        assert k.1 > 0 ==> Continues(t, k.0, k.1, t.references[k].revisionId, t.references[k].hypothesisId);
      } else {
        assert s.InsertReference? && ReferenceAdmitted(t, k.0, k.1, t'.references[k]);
      }
    }
  }

  lemma GrowthKeepsDecision(t: Tables, s: Statement, id: Id)
    requires id in t.decisions && Materialized(t, id) && Terminated(t, id)
    ensures id in Apply(t, s).decisions && Materialized(Apply(t, s), id) && Terminated(Apply(t, s), id)
  {}

  lemma ApplyKeepsSound(t: Tables, s: Statement)
    requires Sound(t)
    ensures Sound(Apply(t, s))
  {
    GrowthKeepsChains(t, s);
    var t' := Apply(t, s);
    forall id | id in t'.decisions
      ensures Materialized(t', id) && Terminated(t', id)
    {
      if id in t.decisions {
        GrowthKeepsDecision(t, s, id);
      } else {
        assert s.InsertDecision? && s.id == id && DecisionAdmitted(t, id, s.decision);
        CompleteMaterializes(t, id, s.decision);
      }
    }
  }

  lemma {:induction false} ReachableIsSound(statements: seq<Statement>)
    ensures Sound(Run(statements))
  {
    if statements != [] {
      ReachableIsSound(statements[..|statements| - 1]);
      ApplyKeepsSound(Run(statements[..|statements| - 1]), statements[|statements| - 1]);
    }
  }

  /** In every reachable state a stored decision's rows equal its array, and whatever is
      inserted next its rows are still exactly those. */
  lemma AdmissionRowsEqualTheArray(statements: seq<Statement>, id: Id)
    requires id in Run(statements).decisions
    ensures Materialized(Run(statements), id)
    ensures forall position, row :: !ReferenceAdmitted(Run(statements), id, position, row)
  {
    ReachableIsSound(statements);
    forall position, row
      ensures !ReferenceAdmitted(Run(statements), id, position, row)
    {
      OwnedRowsAreClosed(Run(statements), id, position, row);
    }
  }

  /** A committed reference table holds nothing but the arrays of the stored decisions. */
  lemma CommittedReferencesAreTheArrays(statements: seq<Statement>, owner: Id, position: int)
    requires Committable(Run(statements))
    ensures (owner, position) in Run(statements).references
       <==> owner in Run(statements).decisions
            && 0 <= position < |Run(statements).decisions[owner].revisionIds.GetOr([])|
  {
    var t := Run(statements);
    ReachableIsSound(statements);
    if owner in t.decisions {
      assert Materialized(t, owner);
    }
  }

  lemma {:induction false} ChainVersions(t: Tables, id: Id, i: nat)
    requires Sound(t) && id in t.decisions
    requires i < |t.decisions[id].revisionIds.value|
    ensures
      var ids := t.decisions[id].revisionIds.value;
      && ids[0] in t.revisions && ids[i] in t.revisions
      && t.revisions[ids[i]].hypothesisId == t.decisions[id].hypothesisId
      && t.revisions[ids[i]].resultingVersion == t.revisions[ids[0]].priorVersion + i + 1
  {
    var ids := t.decisions[id].revisionIds.value;
    assert Materialized(t, id);
    assert (id, i) in t.references && (id, 0) in t.references;
    if i > 0 {
      ChainVersions(t, id, i - 1);
      assert (id, i - 1) in t.references;
      assert Continues(t, id, i, ids[i], t.references[(id, i)].hypothesisId);
    }
  }

  /** An admission with n > 0 revisions: position i results in the first prior version plus
      i + 1, the decision's own version is the first prior version plus n (so n is below it),
      the last revision results in the admitted version, and no two revisions result in the
      same version. */
  lemma AdmissionVersionsAreContiguous(statements: seq<Statement>, id: Id)
    requires id in Run(statements).decisions
    requires |Run(statements).decisions[id].revisionIds.GetOr([])| > 0
    ensures
      var t := Run(statements);
      var d := t.decisions[id];
      var ids := d.revisionIds.GetOr([]);
      var n := |ids|;
      && (forall i :: 0 <= i < n ==> ids[i] in t.revisions)
      && var first := t.revisions[ids[0]].priorVersion;
      && (forall i :: 0 <= i < n ==> t.revisions[ids[i]].resultingVersion == first + i + 1)
      && d.version == first + n
      && n <= d.version - 1
      && t.revisions[ids[n - 1]].resultingId == d.hypothesisVersionId
      && (forall i, j :: 0 <= i < j < n ==> t.revisions[ids[i]].resultingId != t.revisions[ids[j]].resultingId)
      && (forall i, j :: 0 <= i < j < n ==> ids[i] != ids[j])
  {
    var t := Run(statements);
    ReachableIsSound(statements);
    var ids := t.decisions[id].revisionIds.value;
    forall i | 0 <= i < |ids|
      ensures ids[i] in t.revisions
      ensures t.revisions[ids[i]].resultingVersion == t.revisions[ids[0]].priorVersion + i + 1
      ensures VersionExists(t, t.revisions[ids[i]].hypothesisId, t.revisions[ids[i]].resultingId, t.revisions[ids[i]].resultingVersion)
    {
      ChainVersions(t, id, i);
    }
    assert Terminated(t, id);
  }

  // ---- exactly what can be inserted ----

  /** In a reachable database a decision's rows come in order: the next row takes the next position, its
      revision is of the hypothesis, not yet referenced, and starts where the last one ended. */
  ghost predicate NextReference(t: Tables, owner: Id, position: int, row: Reference)
  {
    && owner !in t.decisions && position == |Positions(t, owner)|
    && row.revisionId in t.revisions && t.revisions[row.revisionId].hypothesisId == row.hypothesisId
    && (forall p :: p in Positions(t, owner) ==> t.references[(owner, p)].revisionId != row.revisionId)
    && (position > 0 ==>
          && (owner, position - 1) in t.references
          && var last := t.references[(owner, position - 1)];
          && last.hypothesisId == row.hypothesisId && last.revisionId in t.revisions
          && (t.revisions[last.revisionId].resultingId, t.revisions[last.revisionId].resultingVersion)
             == (t.revisions[row.revisionId].priorId, t.revisions[row.revisionId].priorVersion))
  }

  lemma {:induction false} PositionsDownTo(t: Tables, owner: Id, position: int, p: int)
    requires ReferencesChain(t) && (owner, position) in t.references && 0 <= p <= position
    ensures (owner, p) in t.references
    decreases position - p
  {
    if p < position {
      assert Continues(t, owner, position, t.references[(owner, position)].revisionId, t.references[(owner, position)].hypothesisId);
      PositionsDownTo(t, owner, position - 1, p);
    }
  }

  /** The positions of an owner have no gap. */
  lemma PositionsAreRange(t: Tables, owner: Id)
    requires ReferencesChain(t)
    ensures Positions(t, owner) == Range(|Positions(t, owner)|)
  {
    var positions := Positions(t, owner);
    forall p | p in positions
      ensures 0 <= p && forall q :: 0 <= q <= p ==> q in positions
    {
      assert (owner, p) in t.references;
      forall q | 0 <= q <= p
        ensures q in positions
      {
        PositionsDownTo(t, owner, p, q);
      }
    }
    DownwardClosed(positions, 0);
  }

  /** A set of positions without gaps is an initial range. */
  lemma {:induction false} DownwardClosed(positions: set<int>, n: nat)
    requires forall p :: p in positions ==> 0 <= p && forall q :: 0 <= q <= p ==> q in positions
    requires Range(n) <= positions
    ensures positions == Range(|positions|)
    decreases |positions - Range(n)|
  {
    if n in positions {
      assert positions - Range(n + 1) == positions - Range(n) - {n};
      DownwardClosed(positions, n + 1);
    } else {
      assert positions == Range(n);
    }
  }

  lemma ReferenceExactly(t: Tables, owner: Id, position: int, row: Reference)
    requires Sound(t)
    ensures ReferenceAdmitted(t, owner, position, row) <==> NextReference(t, owner, position, row)
  {
    if owner in t.decisions {
      assert Materialized(t, owner) && Terminated(t, owner);
      OwnedRowsAreClosed(t, owner, position, row);
    } else {
      FreeReferenceExactly(t, owner, position, row);
    }
  }

  lemma FreeReferenceExactly(t: Tables, owner: Id, position: int, row: Reference)
    requires ReferencesChain(t) && owner !in t.decisions
    ensures ReferenceAdmitted(t, owner, position, row) <==> NextReference(t, owner, position, row)
  {
    RowsByPosition(t, owner);
    hide Positions, ReferencesChain;
  }

  /** The decision's array is the rows stored for it, its terminal fields name the last of them, which
      produces the admitted version; without rows no stored revision may produce it. */
  ghost predicate NextDecision(t: Tables, id: Id, row: Decision)
  {
    && id !in t.decisions && row.revisionIds.Some?
    && row.hypothesisVersionId in t.versions && t.versions[row.hypothesisVersionId] == Version(row.hypothesisId, row.version, row.status)
    && var ids := row.revisionIds.value;
    && |Positions(t, id)| == |ids|
    && (forall p :: p in Positions(t, id) ==> 0 <= p < |ids| && t.references[(id, p)] == Reference(ids[p], row.hypothesisId))
    && (if ids == [] then
          row.terminalId.None? && row.terminalPosition.None? && forall r :: r in t.revisions ==> !Produces(t.revisions[r], row)
        else
          && row.terminalId == Some(ids[|ids| - 1]) && row.terminalPosition == Some(|ids| - 1)
          && ids[|ids| - 1] in t.revisions && Produces(t.revisions[ids[|ids| - 1]], row))
  }

  /** The rows of a decision, by position. */
  lemma RowsByPosition(t: Tables, id: Id)
    requires ReferencesChain(t)
    ensures forall p :: p in Positions(t, id) <==> (id, p) in t.references
    ensures forall k :: k in t.references && k.0 == id ==> (id, k.1) == k && k.1 in Positions(t, id)
    ensures forall p :: p in Positions(t, id) <==> 0 <= p < |Positions(t, id)|
  {
    PositionsAreRange(t, id);
    forall p ensures p in Positions(t, id) <==> (id, p) in t.references
    {}
    forall k | k in t.references && k.0 == id
      ensures (id, k.1) == k && k.1 in Positions(t, id)
    {}
  }

  lemma CompleteExactly(t: Tables, id: Id, row: Decision)
    requires ReferencesChain(t)
    ensures Complete(t, id, row) <==>
      && row.revisionIds.Some?
      && var ids := row.revisionIds.value;
      && |Positions(t, id)| == |ids|
      && (forall p :: p in Positions(t, id) ==> 0 <= p < |ids| && t.references[(id, p)] == Reference(ids[p], row.hypothesisId))
      && (if ids == [] then row.terminalId.None? && row.terminalPosition.None?
          else row.terminalId == Some(ids[|ids| - 1]) && row.terminalPosition == Some(|ids| - 1))
  {
    RowsByPosition(t, id);
    hide Positions;
  }

  lemma DecisionExactly(t: Tables, id: Id, row: Decision)
    requires Sound(t) && VersionsPositive(t)
    ensures DecisionAdmitted(t, id, row) <==> NextDecision(t, id, row)
  {
    hide Positions, Terminated, Materialized, Complete, ReferencesChain, VersionsKeyed;
    CompleteExactly(t, id, row);
  }

  ghost predicate VersionsPositive(t: Tables)
  {
    forall id :: id in t.versions ==> t.versions[id].version >= 1
  }

  lemma {:induction false} ReachableVersionsPositive(statements: seq<Statement>)
    ensures VersionsPositive(Run(statements))
  {
    if statements != [] {
      ReachableVersionsPositive(statements[..|statements| - 1]);
    }
  }

  ghost predicate NextVersion(t: Tables, id: Id, row: Version)
  {
    id !in t.versions && row.version >= 1 && forall v :: v in t.versions.Values ==> v.hypothesisId != row.hypothesisId || v.version != row.version
  }

  /** The revision joins two stored versions of its hypothesis, one apart. */
  ghost predicate NextRevision(t: Tables, id: Id, row: Revision)
  {
    && id !in t.revisions && row.priorId in t.versions && row.resultingId in t.versions
    && (t.versions[row.priorId].hypothesisId, t.versions[row.priorId].version) == (row.hypothesisId, row.priorVersion)
    && (t.versions[row.resultingId].hypothesisId, t.versions[row.resultingId].version) == (row.hypothesisId, row.priorVersion + 1)
    && row.resultingVersion == row.priorVersion + 1
  }

  /** What a plain INSERT is accepted for, in every reachable database: the next version of the table, a
      revision between neighbouring versions, the next row of an unfinished admission, or the admission
      that its rows add up to. */
  lemma InsertAcceptsExactly(statements: seq<Statement>, s: Statement)
    ensures
      var t := Run(statements);
      Admitted(t, s) <==> match s
        case InsertVersion(id, row) => NextVersion(t, id, row)
        case InsertRevision(id, row) => NextRevision(t, id, row)
        case InsertReference(owner, position, row) => NextReference(t, owner, position, row)
        case InsertDecision(id, row) => NextDecision(t, id, row)
  {
    hide Sound, ReferenceAdmitted, DecisionAdmitted, NextReference, NextDecision, Run;
    var t := Run(statements);
    ReachableIsSound(statements);
    ReachableVersionsPositive(statements);
    match s {
      case InsertVersion(id, row) => assert forall k :: k in t.versions ==> t.versions[k] in t.versions.Values;
      case InsertRevision(id, row) =>
      case InsertReference(owner, position, row) => ReferenceExactly(t, owner, position, row);
      case InsertDecision(id, row) => DecisionExactly(t, id, row);
    }
  }

  // ---- what the lineage trigger does not keep ----

  /** No admission without revisions names a version that a retained revision produced. */
  ghost predicate NoOmittedLineage(t: Tables)
  {
    forall id :: id in t.decisions ==> OmitsNoLineage(t, t.decisions[id])
  }

  /** The trigger runs when a decision is inserted and never when a revision is, so the rule
      is lost by exactly one kind of statement: an accepted revision that produces a version
      already admitted without revisions. */
  lemma LineageRuleLostExactly(t: Tables, s: Statement)
    requires NoOmittedLineage(t)
    ensures NoOmittedLineage(Apply(t, s))
       <==> !(s.InsertRevision? && Admitted(t, s)
              && exists id :: id in t.decisions && t.decisions[id].terminalId.None? && Produces(s.revision, t.decisions[id]))
  {
    if Admitted(t, s) {
      var t' := Apply(t, s);
      if s.InsertRevision? {
        assert s.id in t'.revisions && t'.revisions[s.id] == s.revision;
        if id :| id in t.decisions && t.decisions[id].terminalId.None? && Produces(s.revision, t.decisions[id]) {
          assert !OmitsNoLineage(t', t'.decisions[id]);
        } else {
          forall id | id in t'.decisions ensures OmitsNoLineage(t', t'.decisions[id])
          {
            assert OmitsNoLineage(t, t.decisions[id]);
          }
        }
      } else {
        forall id | id in t'.decisions ensures OmitsNoLineage(t', t'.decisions[id])
        {
          if id in t.decisions {
            assert OmitsNoLineage(t, t.decisions[id]);
          }
        }
      }
    }
  }

  /** A reachable database in which the rule is lost: admit version 2 with no revisions, then
      record the revision from version 1 to version 2. */
  function LateRevision(): seq<Statement>
  {
    [ InsertVersion("v1", Version("h", 1, "REJECTED")),
      InsertVersion("v2", Version("h", 2, "REJECTED")),
      InsertDecision("d", Decision("v2", "h", 2, "REJECTED", None, None, Some([]))),
      InsertRevision("r", Revision("h", "v1", 1, "v2", 2)) ]
  }

  lemma LateRevisionLosesLineageRule()
    ensures !NoOmittedLineage(Run(LateRevision()))
  {
    var s := LateRevision();
    var t1 := Apply(EMPTY, s[0]);
    var t2 := Apply(t1, s[1]);
    var t3 := Apply(t2, s[2]);
    var t4 := Apply(t3, s[3]);
    assert s[..3][..2] == s[..2] && s[..2][..1] == s[..1] && s[..1][..0] == [];
    assert Run(s[..1]) == t1;
    assert Run(s[..2]) == t2;
    assert Run(s[..3]) == t3;
    assert s[..|s| - 1] == s[..3] && Run(s) == t4;
    assert Positions(t2, "d") == {};
    assert DecisionAdmitted(t2, "d", s[2].decision);
    assert t4.revisions["r"] == s[3].revision;
    assert !OmitsNoLineage(t4, t4.decisions["d"]);
  }
}
