/** Which retained source snapshot is current as of an audit sequence. */
module SnapshotCurrency {
  import opened Common

  datatype Snapshot = Snapshot(
    familyId: string,
    snapshotId: string,
    artifactHash: string,
    auditSequence: int,
    sources: Option<set<(string, string)>>)

  predicate Names(x: Snapshot, snapshotId: string, artifactHash: string)
  {
    x.snapshotId == snapshotId && x.artifactHash == artifactHash
  }

  function GreatestSequence(xs: seq<Snapshot>): (m: int)
    requires xs != []
    ensures exists i :: 0 <= i < |xs| && xs[i].auditSequence == m
    ensures forall i :: 0 <= i < |xs| ==> xs[i].auditSequence <= m
  {
    if |xs| == 1 then xs[0].auditSequence
    else
      var rest := GreatestSequence(xs[1..]);
      assert forall i :: 0 < i < |xs| ==> xs[i] == xs[1..][i - 1];
      if xs[0].auditSequence < rest then rest else xs[0].auditSequence
  }

  predicate SourceAllows(target: Snapshot, required: Option<(string, string)>)
  {
    required.None? || target.sources.None? || required.value in target.sources.value
  }

  function Early(now: int): Snapshot -> bool { (x: Snapshot) => x.auditSequence < now }

  function Named(snapshotId: string, artifactHash: string): Snapshot -> bool
  {
    (x: Snapshot) => Names(x, snapshotId, artifactHash)
  }

  function InFamily(family: string): Snapshot -> bool { (x: Snapshot) => x.familyId == family }

  function AtSequence(sequence: int): Snapshot -> bool { (x: Snapshot) => x.auditSequence == sequence }

  function Both(p: Snapshot -> bool, q: Snapshot -> bool): Snapshot -> bool { (x: Snapshot) => p(x) && q(x) }

  function Prior(snapshots: seq<Snapshot>, now: int): seq<Snapshot> { Filter(Early(now), snapshots) }

  function Targets(snapshots: seq<Snapshot>, snapshotId: string, artifactHash: string, now: int): seq<Snapshot>
  {
    Filter(Named(snapshotId, artifactHash), Prior(snapshots, now))
  }

  function Family(snapshots: seq<Snapshot>, family: string, now: int): seq<Snapshot>
  {
    Filter(InFamily(family), Prior(snapshots, now))
  }

  /** The target is the single entry with the greatest sequence in its family. */
  predicate TopsFamily(target: Snapshot, family: seq<Snapshot>)
    requires family != []
  {
    Filter(AtSequence(GreatestSequence(family)), family) == [target]
  }

  /** The check as the verifier makes it: the prior snapshots, the unique one with this id
      and hash, its family, and the unique greatest member of that family. */
  predicate IsCurrent(snapshots: seq<Snapshot>, snapshotId: string, artifactHash: string,
                      now: int, required: Option<(string, string)>)
  {
    var targets := Targets(snapshots, snapshotId, artifactHash, now);
    |targets| == 1 &&
    var family := Family(snapshots, targets[0].familyId, now);
    family != [] && TopsFamily(targets[0], family) && SourceAllows(targets[0], required)
  }

  /** What being current means, by position in the retained history: entry `i` is the only
      earlier entry with this id and hash, and every other earlier entry of its family is
      strictly older. */
  ghost predicate CurrentAt(snapshots: seq<Snapshot>, i: int, snapshotId: string, artifactHash: string, now: int)
  {
    && 0 <= i < |snapshots|
    && (snapshots[i].snapshotId, snapshots[i].artifactHash) == (snapshotId, artifactHash)
    && snapshots[i].auditSequence < now
    && forall j :: 0 <= j < |snapshots| && j != i && snapshots[j].auditSequence < now ==>
         && (snapshots[j].snapshotId, snapshots[j].artifactHash) != (snapshotId, artifactHash)
         && (snapshots[j].familyId == snapshots[i].familyId
             ==> snapshots[j].auditSequence < snapshots[i].auditSequence)
  }

  lemma TargetPosition(snapshots: seq<Snapshot>, snapshotId: string, artifactHash: string, now: int)
    ensures
      var targets := Targets(snapshots, snapshotId, artifactHash, now);
      var both := Both(Early(now), Named(snapshotId, artifactHash));
      && (|targets| == 1 <==> exists i :: OnlyAt(both, snapshots, i))
      && (forall i :: OnlyAt(both, snapshots, i) ==> targets == [snapshots[i]])
  {
    var both := Both(Early(now), Named(snapshotId, artifactHash));
    FilterFilter(Early(now), Named(snapshotId, artifactHash), both, snapshots);
    FilterSingleton(both, snapshots);
  }

  lemma GreatestPosition(snapshots: seq<Snapshot>, family: string, top: int, now: int)
    requires top < now
    ensures
      var greatest := Filter(AtSequence(top), Family(snapshots, family, now));
      var all := Both(InFamily(family), AtSequence(top));
      && (|greatest| == 1 <==> exists i :: OnlyAt(all, snapshots, i))
      && (forall i :: OnlyAt(all, snapshots, i) ==> greatest == [snapshots[i]])
  {
    var all := Both(InFamily(family), AtSequence(top));
    FilterFilter(Early(now), InFamily(family), Both(Early(now), InFamily(family)), snapshots);
    FilterFilter(Both(Early(now), InFamily(family)), AtSequence(top), all, snapshots);
    FilterSingleton(all, snapshots);
  }

  lemma FamilyMembers(snapshots: seq<Snapshot>, family: string, now: int)
    ensures forall x :: x in Family(snapshots, family, now)
                   <==> x in snapshots && x.auditSequence < now && x.familyId == family
  {
    FilterMembers(Early(now), snapshots);
    FilterMembers(InFamily(family), Prior(snapshots, now));
  }

  lemma CurrentIsTop(snapshots: seq<Snapshot>, i: int, snapshotId: string, artifactHash: string, now: int, family: seq<Snapshot>)
    requires CurrentAt(snapshots, i, snapshotId, artifactHash, now)
    requires family == Family(snapshots, snapshots[i].familyId, now)
    ensures family != [] && TopsFamily(snapshots[i], family)
  {
    hide Family;
    FamilyMembers(snapshots, snapshots[i].familyId, now);
    assert snapshots[i] in family;
    var top := GreatestSequence(family);
    var k :| 0 <= k < |family| && family[k].auditSequence == top;
    assert family[k] in family;
    GreatestPosition(snapshots, snapshots[i].familyId, top, now);
    assert OnlyAt(Both(InFamily(snapshots[i].familyId), AtSequence(top)), snapshots, i);
  }

  lemma TopIsCurrent(snapshots: seq<Snapshot>, i: int, snapshotId: string, artifactHash: string, now: int, family: seq<Snapshot>)
    requires OnlyAt(Both(Early(now), Named(snapshotId, artifactHash)), snapshots, i)
    requires family == Family(snapshots, snapshots[i].familyId, now) && family != [] && TopsFamily(snapshots[i], family)
    ensures CurrentAt(snapshots, i, snapshotId, artifactHash, now)
  {
    hide Family;
    var target, top := snapshots[i], GreatestSequence(family);
    FamilyMembers(snapshots, target.familyId, now);
    assert target in family;
    GreatestPosition(snapshots, target.familyId, top, now);
    var g :| OnlyAt(Both(InFamily(target.familyId), AtSequence(top)), snapshots, g);
    assert snapshots[g] == target && g == i;
    forall j | 0 <= j < |snapshots| && j != i && snapshots[j].auditSequence < now && snapshots[j].familyId == target.familyId
      ensures snapshots[j].auditSequence < target.auditSequence
    {
      assert snapshots[j] in family;
    }
  }

  lemma TopOfFamily(snapshots: seq<Snapshot>, i: int, snapshotId: string, artifactHash: string, now: int)
    requires OnlyAt(Both(Early(now), Named(snapshotId, artifactHash)), snapshots, i)
    ensures
      var family := Family(snapshots, snapshots[i].familyId, now);
      family != [] && (TopsFamily(snapshots[i], family) <==> CurrentAt(snapshots, i, snapshotId, artifactHash, now))
  {
    hide Family, TopsFamily, CurrentAt;
    var family := Family(snapshots, snapshots[i].familyId, now);
    FamilyMembers(snapshots, snapshots[i].familyId, now);
    assert snapshots[i] in family;
    if CurrentAt(snapshots, i, snapshotId, artifactHash, now) {
      CurrentIsTop(snapshots, i, snapshotId, artifactHash, now, family);
    }
    if TopsFamily(snapshots[i], family) {
      TopIsCurrent(snapshots, i, snapshotId, artifactHash, now, family);
    }
  }

  /** The check computes exactly the positional meaning, for every history. */
  lemma CurrentCharacterised(snapshots: seq<Snapshot>, snapshotId: string, artifactHash: string,
                             now: int, required: Option<(string, string)>)
    ensures IsCurrent(snapshots, snapshotId, artifactHash, now, required)
       <==> exists i :: CurrentAt(snapshots, i, snapshotId, artifactHash, now)
                        && (required.Some? && snapshots[i].sources.Some? ==> required.value in snapshots[i].sources.value)
  {
    var both := Both(Early(now), Named(snapshotId, artifactHash));
    TargetPosition(snapshots, snapshotId, artifactHash, now);
    forall i | OnlyAt(both, snapshots, i)
      ensures IsCurrent(snapshots, snapshotId, artifactHash, now, required)
         <==> CurrentAt(snapshots, i, snapshotId, artifactHash, now) && SourceAllows(snapshots[i], required)
    {
      TopOfFamily(snapshots, i, snapshotId, artifactHash, now);
    }
    assert forall i :: CurrentAt(snapshots, i, snapshotId, artifactHash, now) ==> OnlyAt(both, snapshots, i);
  }

  /** Two different snapshots current at the same sequence never share a family. */
  lemma AtMostOneCurrentPerFamily(snapshots: seq<Snapshot>, now: int,
                                  id1: string, hash1: string, required1: Option<(string, string)>,
                                  id2: string, hash2: string, required2: Option<(string, string)>)
    requires IsCurrent(snapshots, id1, hash1, now, required1)
    requires IsCurrent(snapshots, id2, hash2, now, required2)
    requires (id1, hash1) != (id2, hash2)
    ensures Targets(snapshots, id1, hash1, now)[0].familyId != Targets(snapshots, id2, hash2, now)[0].familyId
  {
    CurrentCharacterised(snapshots, id1, hash1, now, required1);
    CurrentCharacterised(snapshots, id2, hash2, now, required2);
    var i :| CurrentAt(snapshots, i, id1, hash1, now);
    var j :| CurrentAt(snapshots, j, id2, hash2, now);
    TargetPosition(snapshots, id1, hash1, now);
    TargetPosition(snapshots, id2, hash2, now);
    assert OnlyAt(Both(Early(now), Named(id1, hash1)), snapshots, i);
    assert OnlyAt(Both(Early(now), Named(id2, hash2)), snapshots, j);
  }

  /** The sequences at which a snapshot is current form one interval. */
  lemma CurrencyIsAnInterval(snapshots: seq<Snapshot>, snapshotId: string, artifactHash: string,
                             required: Option<(string, string)>, a: int, b: int, c: int)
    requires a <= b <= c
    requires IsCurrent(snapshots, snapshotId, artifactHash, a, required)
    requires IsCurrent(snapshots, snapshotId, artifactHash, c, required)
    ensures IsCurrent(snapshots, snapshotId, artifactHash, b, required)
  {
    CurrentCharacterised(snapshots, snapshotId, artifactHash, a, required);
    CurrentCharacterised(snapshots, snapshotId, artifactHash, b, required);
    CurrentCharacterised(snapshots, snapshotId, artifactHash, c, required);
    var i :| CurrentAt(snapshots, i, snapshotId, artifactHash, a) && SourceAllows(snapshots[i], required);
    var k :| CurrentAt(snapshots, k, snapshotId, artifactHash, c) && SourceAllows(snapshots[k], required);
    assert i == k;
    assert CurrentAt(snapshots, i, snapshotId, artifactHash, b);
  }

  /** Once superseded, never current again. */
  lemma SupersededForever(snapshots: seq<Snapshot>, snapshotId: string, artifactHash: string,
                          required: Option<(string, string)>, born: int, lost: int, later: int)
    requires born < lost <= later
    requires IsCurrent(snapshots, snapshotId, artifactHash, born, required)
    requires !IsCurrent(snapshots, snapshotId, artifactHash, lost, required)
    ensures !IsCurrent(snapshots, snapshotId, artifactHash, later, required)
  {
    if IsCurrent(snapshots, snapshotId, artifactHash, later, required) {
      CurrencyIsAnInterval(snapshots, snapshotId, artifactHash, required, born, lost, later);
    }
  }

  /** An entry that displaces a current snapshot: any other entry of its family, or any other
      entry that repeats its id and hash, whatever the family. */
  ghost predicate Displaces(x: Snapshot, target: Snapshot)
  {
    x.familyId == target.familyId || Names(x, target.snapshotId, target.artifactHash)
  }

  /** Exactly what ends currency: a current snapshot stays current over the next sequence
      unless an entry retained at that sequence displaces it. */
  lemma CurrencyEndsExactly(snapshots: seq<Snapshot>, i: int, snapshotId: string, artifactHash: string,
                            now: int, required: Option<(string, string)>)
    requires CurrentAt(snapshots, i, snapshotId, artifactHash, now) && SourceAllows(snapshots[i], required)
    ensures IsCurrent(snapshots, snapshotId, artifactHash, now + 1, required)
       <==> forall j :: 0 <= j < |snapshots| && snapshots[j].auditSequence == now ==> !Displaces(snapshots[j], snapshots[i])
  {
    CurrentCharacterised(snapshots, snapshotId, artifactHash, now + 1, required);
    if forall j :: 0 <= j < |snapshots| && snapshots[j].auditSequence == now ==> !Displaces(snapshots[j], snapshots[i]) {
      assert CurrentAt(snapshots, i, snapshotId, artifactHash, now + 1);
    }
    if k :| CurrentAt(snapshots, k, snapshotId, artifactHash, now + 1) && SourceAllows(snapshots[k], required) {
      assert k == i;
    }
  }
}
