/** Evaluator audits, measurements, versions and successions as the audit replay rebuilds them. */
module EvaluatorReplay {
  import opened Common
  import opened ReplayTables

  datatype EvaluatorAudit = EvaluatorAudit(id: Id, governing: Digest, body: string)

  datatype Measurement = Measurement(id: Id, runId: Id, auditId: Id, governing: Digest, body: string)

  datatype EvaluatorVersion = EvaluatorVersion(id: Id, predecessor: Option<Id>, governing: Digest, body: string)

  datatype Succession = Succession(id: Id, predecessor: Id, candidate: Id, accepted: bool, governing: Digest, body: string)

  datatype Evaluators = Evaluators(
    audits: map<Id, EvaluatorAudit>, measurements: map<Id, Measurement>, versions: map<Id, EvaluatorVersion>,
    successions: map<Id, Succession>, head: Option<Id>, succeeded: bool)

  const NO_EVALUATORS := Evaluators(map[], map[], map[], map[], None, false)

  function AddAudit(e: Evaluators, governing: Digest, audit: EvaluatorAudit): Result<Evaluators>
  {
    if audit.governing != governing || audit.id in e.audits then Raised else Ok(e.(audits := e.audits[audit.id := audit]))
  }

  function AddMeasurement<V>(e: Evaluators, runs: map<Id, V>, governing: Digest, m: Measurement): Result<Evaluators>
  {
    if m.governing != governing || m.runId !in runs || m.auditId !in e.audits || m.id in e.measurements then Raised
    else Ok(e.(measurements := e.measurements[m.id := m]))
  }

  function AddEvaluator(e: Evaluators, governing: Digest, v: EvaluatorVersion): Result<Evaluators>
  {
    if v.governing != governing || v.id in e.versions then Raised else Ok(e.(versions := e.versions[v.id := v]))
  }

  function Roots(versions: map<Id, EvaluatorVersion>): set<Id>
  {
    set id | id in versions && versions[id].predecessor.None?
  }

  function AddSuccession(e: Evaluators, governing: Digest, s: Succession): Result<Evaluators>
  {
    if s.governing != governing || s.predecessor !in e.versions || s.candidate !in e.versions || s.id in e.successions then Raised
    else
      var recorded := e.(successions := e.successions[s.id := s]);
      if !s.accepted then Ok(recorded)
      else if e.succeeded && Some(s.predecessor) != e.head then Raised
      else if !e.succeeded && Roots(e.versions) != {s.predecessor} then Raised
      else Ok(recorded.(head := Some(s.candidate), succeeded := true))
  }

  /** The stored head: the replayed one, or before any succession nothing or the unique root. */
  predicate HeadAllowed(e: Evaluators, stored: Option<Id>)
  {
    if e.succeeded then stored == e.head else stored.None? || Roots(e.versions) == {stored.value}
  }

  // ---- what every replay keeps ----

  ghost predicate EvaluatorsSound<V>(e: Evaluators, runs: map<Id, V>)
  {
    && (forall id :: id in e.measurements ==> e.measurements[id].runId in runs && e.measurements[id].auditId in e.audits)
    && (forall id :: id in e.successions ==> e.successions[id].predecessor in e.versions && e.successions[id].candidate in e.versions)
    && (e.succeeded <==> e.head.Some?)
    && (e.head.Some? ==> e.head.value in e.versions)
  }

  lemma AuditKeepsSound<V>(e: Evaluators, runs: map<Id, V>, governing: Digest, audit: EvaluatorAudit)
    requires EvaluatorsSound(e, runs) && AddAudit(e, governing, audit).Ok?
    ensures EvaluatorsSound(AddAudit(e, governing, audit).value, runs)
  {}

  lemma MeasurementKeepsSound<V>(e: Evaluators, runs: map<Id, V>, governing: Digest, m: Measurement)
    requires EvaluatorsSound(e, runs) && AddMeasurement(e, runs, governing, m).Ok?
    ensures EvaluatorsSound(AddMeasurement(e, runs, governing, m).value, runs)
  {}

  lemma EvaluatorKeepsSound<V>(e: Evaluators, runs: map<Id, V>, governing: Digest, v: EvaluatorVersion)
    requires EvaluatorsSound(e, runs) && AddEvaluator(e, governing, v).Ok?
    ensures EvaluatorsSound(AddEvaluator(e, governing, v).value, runs)
  {}

  lemma SuccessionKeepsSound<V>(e: Evaluators, runs: map<Id, V>, governing: Digest, s: Succession)
    requires EvaluatorsSound(e, runs) && AddSuccession(e, governing, s).Ok?
    ensures EvaluatorsSound(AddSuccession(e, governing, s).value, runs)
  {}

  /** The accepted successions so far form one path: from the root that was unique when the first
      one was decided, each from where the last one ended, to the head. */
  ghost predicate OnePath(path: seq<Succession>, root: Option<Id>, e: Evaluators)
  {
    && (e.succeeded <==> path != [])
    && (path != [] ==> root == Some(path[0].predecessor) && e.head == Some(path[|path| - 1].candidate))
    && (forall i :: 0 < i < |path| ==> path[i].predecessor == path[i - 1].candidate)
    && (forall i :: 0 <= i < |path| ==> path[i].accepted)
  }

  lemma SuccessionExtendsPath(path: seq<Succession>, root: Option<Id>, e: Evaluators, governing: Digest, s: Succession)
    requires OnePath(path, root, e) && AddSuccession(e, governing, s).Ok?
    ensures
      var after := AddSuccession(e, governing, s).value;
      if s.accepted then
        && OnePath(path + [s], if path == [] then Some(s.predecessor) else root, after)
        && (path == [] ==> Roots(e.versions) == {s.predecessor})
      else OnePath(path, root, after)
  {}

  // ---- the dictionaries, filled in place ----

  class EvaluatorTables {
    var audits: map<Id, EvaluatorAudit>
    var measurements: map<Id, Measurement>
    var versions: map<Id, EvaluatorVersion>
    var successions: map<Id, Succession>
    var head: Option<Id>
    var succeeded: bool

    function Contents(): Evaluators
      reads this
    {
      Evaluators(audits, measurements, versions, successions, head, succeeded)
    }

    constructor ()
      ensures Contents() == NO_EVALUATORS
    {
      audits, measurements, versions, successions, head, succeeded := map[], map[], map[], map[], None, false;
    }

    method RecordAudit(governing: Digest, audit: EvaluatorAudit) returns (ok: bool)
      modifies this`audits
      ensures ok <==> AddAudit(old(Contents()), governing, audit).Ok?
      ensures ok ==> Contents() == AddAudit(old(Contents()), governing, audit).value
    {
      ok := audit.governing == governing && audit.id !in audits;
      if ok {
        audits := audits[audit.id := audit];
      }
    }

    /** `_add_expected_measurement`. */
    method RecordMeasurement<V>(runs: map<Id, V>, governing: Digest, m: Measurement) returns (ok: bool)
      modifies this`measurements
      ensures ok <==> AddMeasurement(old(Contents()), runs, governing, m).Ok?
      ensures ok ==> Contents() == AddMeasurement(old(Contents()), runs, governing, m).value
    {
      ok := m.governing == governing && m.runId in runs && m.auditId in audits && m.id !in measurements;
      if ok {
        measurements := measurements[m.id := m];
      }
    }

    method ProposeVersion(governing: Digest, v: EvaluatorVersion) returns (ok: bool)
      modifies this`versions
      ensures ok <==> AddEvaluator(old(Contents()), governing, v).Ok?
      ensures ok ==> Contents() == AddEvaluator(old(Contents()), governing, v).value
    {
      ok := v.governing == governing && v.id !in versions;
      if ok {
        versions := versions[v.id := v];
      }
    }

    method DecideSuccession(governing: Digest, s: Succession) returns (ok: bool)
      modifies this`successions, this`head, this`succeeded
      ensures ok <==> AddSuccession(old(Contents()), governing, s).Ok?
      ensures ok ==> Contents() == AddSuccession(old(Contents()), governing, s).value
    {
      if s.governing != governing || s.predecessor !in versions || s.candidate !in versions || s.id in successions {
        return false;
      }
      successions := successions[s.id := s];
      if s.accepted {
        if succeeded {
          if Some(s.predecessor) != head {
            return false;
          }
        } else if Roots(versions) != {s.predecessor} {
          return false;
        }
        head := Some(s.candidate);
        succeeded := true;
      }
      return true;
    }
  }
}
