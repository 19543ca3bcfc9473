/** The replay index from evidence keys to projected evidence pairs. It keeps at most two
    pairs for a key and must still answer as a scan over everything that was added. */
module EvidenceIndex {
  import opened Common

  datatype Coordinate = Coordinate(model: string, harness: string, partition: Option<string>)
  datatype Receipt = Receipt(recordId: string, schemaVersion: int, contentHash: string)
  datatype Protocol = Protocol(protocolId: string, content: string)
  datatype Trace = Trace(traceId: string, contentHash: string, observed: Coordinate)
  datatype Assessment = Assessment(traceId: string, traceHash: string, freshness: string)
  datatype Cell = Cell(coordinate: Coordinate, chainReceipt: Receipt)
  datatype Pair = Pair(chain: string, snapshot: string)
  datatype Key = Key(protocolId: string, coordinate: Coordinate, receipt: Receipt)

  /** The domain functions the index calls; their bodies are not part of this model. */
  datatype Projection = Projection(
    matchesMatrix: (Trace, Protocol) -> bool,
    project: (Protocol, Trace, Assessment) -> Pair,
    receipt: Pair -> Receipt)

  datatype Addition = Addition(protocol: Protocol, trace: Trace, assessment: Assessment)

  /** An addition that the index does not ignore. */
  predicate Eligible(p: Projection, a: Addition)
  {
    && p.matchesMatrix(a.trace, a.protocol)
    && a.assessment.traceId == a.trace.traceId
    && a.assessment.traceHash == a.trace.contentHash
    && a.trace.observed.partition.Some?
  }

  function PairOf(p: Projection, a: Addition): Pair
  {
    p.project(a.protocol, a.trace, a.assessment)
  }

  function KeyOf(p: Projection, a: Addition): Key
  {
    Key(a.protocol.protocolId, a.trace.observed, p.receipt(PairOf(p, a)))
  }

  function CellKey(protocol: Protocol, cell: Cell): Key
  {
    Key(protocol.protocolId, cell.coordinate, cell.chainReceipt)
  }

  /** Reference: every pair ever added for a key, found by scanning the additions in order. */
  function Scan(p: Projection, added: seq<Addition>, key: Key): seq<Pair>
  {
    if added == [] then []
    else
      var last := added[|added| - 1];
      Scan(p, added[..|added| - 1], key)
      + (if Eligible(p, last) && KeyOf(p, last) == key then [PairOf(p, last)] else [])
  }

  /** Reference answer: the only match, or an error when there is none or more than one. */
  function ScanResolve(p: Projection, added: seq<Addition>, key: Key): Result<Pair>
  {
    var found := Scan(p, added, key);
    if |found| == 1 then Ok(found[0]) else Raised
  }

  function Lookup(pairsByKey: map<Key, seq<Pair>>, key: Key): seq<Pair>
  {
    if key in pairsByKey then pairsByKey[key] else []
  }

  /** The table holds, for every key, exactly the first two matches of the scan. */
  ghost predicate Represents(p: Projection, pairsByKey: map<Key, seq<Pair>>, added: seq<Addition>)
  {
    forall key ::
      var found := Scan(p, added, key);
      Lookup(pairsByKey, key) == if |found| <= 2 then found else found[..2]
  }

  function ResolveIn(pairsByKey: map<Key, seq<Pair>>, protocol: Protocol, cell: Cell): Result<Pair>
  {
    var matches := Lookup(pairsByKey, CellKey(protocol, cell));
    if |matches| == 1 then Ok(matches[0]) else Raised
  }

  /** Two retained matches are enough: any table that represents the additions resolves every
      cell as the scan does. */
  lemma CappedTableAnswersLikeScan(p: Projection, pairsByKey: map<Key, seq<Pair>>, added: seq<Addition>,
                                   protocol: Protocol, cell: Cell)
    requires Represents(p, pairsByKey, added)
    ensures ResolveIn(pairsByKey, protocol, cell) == ScanResolve(p, added, CellKey(protocol, cell))
  {}

  lemma {:induction false} ScanGrows(p: Projection, added: seq<Addition>, more: seq<Addition>, key: Key)
    ensures Scan(p, added, key) <= Scan(p, added + more, key)
  {
    if more == [] {
      assert added + more == added;
    } else {
      var front := more[..|more| - 1];
      ScanGrows(p, added, front, key);
      assert (added + more)[..|added + more| - 1] == added + front;
    }
  }

  /** An ambiguous key stays ambiguous, and a resolved key is never re-bound: later additions
      either leave the answer alone or make it an error. */
  lemma AmbiguityIsPermanent(p: Projection, added: seq<Addition>, more: seq<Addition>, key: Key)
    ensures |Scan(p, added, key)| > 1 ==> ScanResolve(p, added + more, key).Raised?
    ensures ScanResolve(p, added, key).Ok? ==>
              ScanResolve(p, added + more, key) in {ScanResolve(p, added, key), Raised}
  {
    ScanGrows(p, added, more, key);
  }

  /** The i-th addition projects to this cell of the protocol: a trace of the protocol's matrix, observed
      at the cell's full coordinate, with its own assessment, whose pair has the cell's receipt. */
  predicate BindsAt(p: Projection, added: seq<Addition>, protocol: Protocol, cell: Cell, i: nat)
    requires i < |added|
  {
    var a := added[i];
    && p.matchesMatrix(a.trace, a.protocol) && a.protocol.protocolId == protocol.protocolId
    && a.trace.observed == cell.coordinate && cell.coordinate.partition.Some?
    && (a.assessment.traceId, a.assessment.traceHash) == (a.trace.traceId, a.trace.contentHash)
    && p.receipt(p.project(a.protocol, a.trace, a.assessment)) == cell.chainReceipt
  }

  /** Exactly one addition binds the cell. */
  ghost predicate BindsOnce(p: Projection, added: seq<Addition>, protocol: Protocol, cell: Cell, i: nat)
  {
    && i < |added| && BindsAt(p, added, protocol, cell, i)
    && forall j: nat :: j < |added| && BindsAt(p, added, protocol, cell, j) ==> j == i
  }

  lemma BindsKey(p: Projection, added: seq<Addition>, protocol: Protocol, cell: Cell, i: nat)
    requires i < |added|
    ensures BindsAt(p, added, protocol, cell, i) <==> Eligible(p, added[i]) && KeyOf(p, added[i]) == CellKey(protocol, cell)
  {}

  lemma {:induction false} ScanCounts(p: Projection, added: seq<Addition>, protocol: Protocol, cell: Cell)
    ensures
      var found := Scan(p, added, CellKey(protocol, cell));
      && (found == [] <==> forall i: nat :: i < |added| ==> !BindsAt(p, added, protocol, cell, i))
      && (|found| == 1 <==> exists i: nat :: BindsOnce(p, added, protocol, cell, i))
      && (forall i: nat :: BindsOnce(p, added, protocol, cell, i) ==> found == [PairOf(p, added[i])])
  {
    hide BindsAt, Eligible, KeyOf, PairOf, CellKey;
    if added != [] {
      var n := |added| - 1;
      var front := added[..n];
      ScanCounts(p, front, protocol, cell);
      BindsKey(p, added, protocol, cell, n);
      forall i: nat | i < n
        ensures BindsAt(p, front, protocol, cell, i) == BindsAt(p, added, protocol, cell, i)
      {
        BindsKey(p, front, protocol, cell, i);
        BindsKey(p, added, protocol, cell, i);
      }
      if BindsAt(p, added, protocol, cell, n) {
        if Scan(p, front, CellKey(protocol, cell)) == [] {
          assert BindsOnce(p, added, protocol, cell, n);
        }
      } else {
        forall i: nat
          ensures BindsOnce(p, front, protocol, cell, i) <==> BindsOnce(p, added, protocol, cell, i)
        {}
      }
    }
  }

  /** A cell resolves exactly when one addition binds it, and then to that addition's pair. */
  lemma ResolvesExactly(p: Projection, added: seq<Addition>, protocol: Protocol, cell: Cell, pair: Pair)
    ensures ScanResolve(p, added, CellKey(protocol, cell)) == Ok(pair)
       <==> exists i: nat :: BindsOnce(p, added, protocol, cell, i) && pair == p.project(added[i].protocol, added[i].trace, added[i].assessment)
  {
    ScanCounts(p, added, protocol, cell);
    if exists i: nat :: BindsOnce(p, added, protocol, cell, i) {
      var i: nat :| BindsOnce(p, added, protocol, cell, i);
      assert Scan(p, added, CellKey(protocol, cell)) == [PairOf(p, added[i])];
    }
  }

  datatype FrozenIndex = FrozenIndex(pairsByKey: map<Key, seq<Pair>>) {
    function Resolve(protocol: Protocol, cell: Cell): Result<Pair>
    {
      ResolveIn(pairsByKey, protocol, cell)
    }
  }

  class IndexBuilder {
    const projection: Projection
    var pairsByKey: map<Key, seq<Pair>>
    /** Everything passed to `Add`, in order. */
    ghost var added: seq<Addition>

    ghost predicate Valid()
      reads this
    {
      Represents(projection, pairsByKey, added)
    }

    constructor (projection: Projection)
      ensures Valid() && added == [] && this.projection == projection
    {
      this.projection := projection;
      pairsByKey := map[];
      added := [];
    }

    method Add(protocol: Protocol, trace: Trace, assessment: Assessment)
      requires Valid()
      modifies this
      ensures Valid()
      ensures added == old(added) + [Addition(protocol, trace, assessment)]
    {
      ghost var before := added;
      var a := Addition(protocol, trace, assessment);
      added := added + [a];
      assert added[..|added| - 1] == before;
      if !Eligible(projection, a) {
        return;
      }
      var key := KeyOf(projection, a);
      var matches := if key in pairsByKey then pairsByKey[key] else [];
      if |matches| < 2 {
        matches := matches + [PairOf(projection, a)];
      }
      pairsByKey := pairsByKey[key := matches];
    }

    method Resolve(protocol: Protocol, cell: Cell) returns (r: Result<Pair>)
      requires Valid()
      ensures r == ScanResolve(projection, added, CellKey(protocol, cell))
    {
      var key := CellKey(protocol, cell);
      var matches := if key in pairsByKey then pairsByKey[key] else [];
      CappedTableAnswersLikeScan(projection, pairsByKey, added, protocol, cell);
      if |matches| != 1 {
        return Raised;
      }
      return Ok(matches[0]);
    }

    /** A frozen index keeps answering for the additions made before the freeze, whatever the
        builder does afterwards. */
    method Freeze() returns (frozen: FrozenIndex)
      requires Valid()
      ensures forall protocol, cell :: frozen.Resolve(protocol, cell) == ScanResolve(projection, added, CellKey(protocol, cell))
    {
      frozen := FrozenIndex(pairsByKey);
      forall protocol, cell
        ensures frozen.Resolve(protocol, cell) == ScanResolve(projection, added, CellKey(protocol, cell))
      {
        CappedTableAnswersLikeScan(projection, pairsByKey, added, protocol, cell);
      }
    }
  }
}
