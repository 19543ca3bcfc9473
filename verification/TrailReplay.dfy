/** Evidence, claims and evidence trails as the audit replay rebuilds them. */
module TrailReplay {
  import opened Common
  import opened ReplayTables

  datatype Evidence = Evidence(id: Id, body: string)

  /** The text `claim_id:version` is injective, so the pair stands for it. */
  datatype ClaimKey = ClaimKey(claimId: Id, version: nat)

  datatype Claim = Claim(key: ClaimKey, parent: Option<ClaimKey>, body: string)

  datatype RowKind = Node | Relation | Check | Assessment

  datatype TrailRow = TrailRow(id: Id, trailVersionId: Id, body: string)

  datatype TrailVersion = TrailVersion(
    id: Id, trailId: Id, version: nat, parent: Option<Id>, claim: ClaimKey, governing: Digest, body: string)

  /** The four kinds of rows have one dictionary each; keying by kind stands for the four. */
  type Rows = map<(RowKind, Id), TrailRow>

  datatype Trails = Trails(
    evidence: map<Id, Evidence>, claims: map<ClaimKey, Claim>,
    versions: map<Id, TrailVersion>, rows: Rows, heads: map<Id, (Id, nat)>)

  const NO_TRAILS := Trails(map[], map[], map[], map[], map[])

  function AddEvidence(t: Trails, e: Evidence): Result<Trails>
  {
    if e.id in t.evidence then Raised else Ok(t.(evidence := t.evidence[e.id := e]))
  }

  function AddClaim(t: Trails, c: Claim): Result<Trails>
  {
    if c.key in t.claims then Raised else Ok(t.(claims := t.claims[c.key := c]))
  }

  /** The version begins its trail, or continues the head and the head's claim. */
  predicate Continues(t: Trails, v: TrailVersion)
  {
    if v.trailId !in t.heads then v.version == 1 && v.parent.None?
    else
      var (parent, version) := t.heads[v.trailId];
      && v.version == version + 1 && v.parent == Some(parent)
      && parent in t.versions && t.versions[parent].trailId == v.trailId
      && v.claim in t.claims && t.claims[v.claim].parent == Some(t.versions[parent].claim)
  }

  function KeyedRows(rows: seq<(RowKind, TrailRow)>): seq<((RowKind, Id), TrailRow)>
  {
    seq(|rows|, i requires 0 <= i < |rows| => ((rows[i].0, rows[i].1.id), rows[i].1))
  }

  function AddVersion(t: Trails, governing: Digest, v: TrailVersion, rows: seq<(RowKind, TrailRow)>): Result<Trails>
  {
    if v.governing != governing || !Continues(t, v) || v.claim !in t.claims || v.id in t.versions then Raised
    else
      var added := AddRows(t.rows, KeyedRows(rows));
      if added.Raised? then Raised
      else Ok(t.(versions := t.versions[v.id := v], rows := added.value, heads := t.heads[v.trailId := (v.id, v.version)]))
  }

  // ---- what every replay keeps ----

  ghost predicate VersionSound(t: Trails, id: Id)
    requires id in t.versions
  {
    var v := t.versions[id];
    && v.id == id && v.trailId in t.heads && 1 <= v.version <= t.heads[v.trailId].1 && v.claim in t.claims
    && (v.version == 1 <==> v.parent.None?)
    && (v.parent.Some? ==>
          && v.parent.value in t.versions
          && var parent := t.versions[v.parent.value];
          parent.trailId == v.trailId && parent.version + 1 == v.version && t.claims[v.claim].parent == Some(parent.claim))
  }

  ghost predicate OneOfEach(versions: map<Id, TrailVersion>)
  {
    forall a, b :: a in versions && b in versions && versions[a].trailId == versions[b].trailId && versions[a].version == versions[b].version ==> a == b
  }

  ghost predicate HeadSound(t: Trails, trailId: Id)
    requires trailId in t.heads
  {
    var (id, version) := t.heads[trailId];
    id in t.versions && t.versions[id].trailId == trailId && t.versions[id].version == version
  }

  ghost predicate TrailsSound(t: Trails)
  {
    && (forall id :: id in t.versions ==> VersionSound(t, id))
    && OneOfEach(t.versions)
    && (forall trailId :: trailId in t.heads ==> HeadSound(t, trailId))
  }

  lemma EvidenceKeepsSound(t: Trails, e: Evidence)
    requires TrailsSound(t) && AddEvidence(t, e).Ok?
    ensures TrailsSound(AddEvidence(t, e).value)
  {}

  lemma ClaimKeepsSound(t: Trails, c: Claim)
    requires TrailsSound(t) && AddClaim(t, c).Ok?
    ensures TrailsSound(AddClaim(t, c).value)
  {}

  lemma NewVersionSound(t: Trails, v: TrailVersion, u: Trails)
    requires TrailsSound(t) && Continues(t, v) && v.claim in t.claims && v.id !in t.versions
    requires u == t.(versions := t.versions[v.id := v], rows := u.rows, heads := t.heads[v.trailId := (v.id, v.version)])
    ensures VersionSound(u, v.id) && HeadSound(u, v.trailId)
    ensures forall id :: id in t.versions && t.versions[id].trailId == v.trailId ==> t.versions[id].version < v.version
  {}

  lemma VersionKeepsSound(t: Trails, governing: Digest, v: TrailVersion, rows: seq<(RowKind, TrailRow)>)
    requires TrailsSound(t) && AddVersion(t, governing, v, rows).Ok?
    ensures TrailsSound(AddVersion(t, governing, v, rows).value)
  {
    hide VersionSound, HeadSound;
    var u := AddVersion(t, governing, v, rows).value;
    NewVersionSound(t, v, u);
    hide Continues;
    forall id | id in u.versions
      ensures VersionSound(u, id)
    {
      if id != v.id {
        OldVersionSound(t, v, u, id);
      }
    }
    forall trailId | trailId in u.heads
      ensures HeadSound(u, trailId)
    {
      if trailId != v.trailId {
        OldHeadSound(t, v, u, trailId);
      }
    }
  }

  lemma OldVersionSound(t: Trails, v: TrailVersion, u: Trails, id: Id)
    requires id in t.versions && VersionSound(t, id) && v.id !in t.versions
    requires t.versions[id].trailId == v.trailId ==> t.versions[id].version < v.version
    requires u == t.(versions := t.versions[v.id := v], rows := u.rows, heads := t.heads[v.trailId := (v.id, v.version)])
    ensures VersionSound(u, id)
  {}

  lemma OldHeadSound(t: Trails, v: TrailVersion, u: Trails, trailId: Id)
    requires trailId in t.heads && trailId != v.trailId && HeadSound(t, trailId) && v.id !in t.versions
    requires u == t.(versions := t.versions[v.id := v], rows := u.rows, heads := t.heads[v.trailId := (v.id, v.version)])
    ensures HeadSound(u, trailId)
  {}

  // ---- a trail is one chain ----

  /** A version's ancestors, oldest first, and the version itself. */
  ghost function ChainTo(t: Trails, id: Id): seq<Id>
    requires TrailsSound(t) && id in t.versions
    decreases t.versions[id].version
  {
    assert VersionSound(t, id);
    if t.versions[id].parent.None? then [id] else ChainTo(t, t.versions[id].parent.value) + [id]
  }

  /** Position i of a chain holds version i + 1, linked to the one before, and so is its claim. */
  ghost predicate Linked(t: Trails, chain: seq<Id>, i: nat)
    requires i < |chain|
  {
    && chain[i] in t.versions && t.versions[chain[i]].version == i + 1 && t.versions[chain[i]].claim in t.claims
    && (if i == 0 then t.versions[chain[i]].parent.None?
        else
          && chain[i - 1] in t.versions && t.versions[chain[i]].parent == Some(chain[i - 1])
          && t.claims[t.versions[chain[i]].claim].parent == Some(t.versions[chain[i - 1]].claim))
  }

  lemma {:induction false} ChainIsLinked(t: Trails, id: Id)
    requires TrailsSound(t) && id in t.versions
    ensures |ChainTo(t, id)| == t.versions[id].version && ChainTo(t, id)[|ChainTo(t, id)| - 1] == id
    ensures forall i :: 0 <= i < |ChainTo(t, id)| ==> Linked(t, ChainTo(t, id), i) && t.versions[ChainTo(t, id)[i]].trailId == t.versions[id].trailId
    decreases t.versions[id].version
  {
    assert VersionSound(t, id);
    if t.versions[id].parent.Some? {
      var parent := t.versions[id].parent.value;
      var earlier, chain := ChainTo(t, parent), ChainTo(t, id);
      ChainIsLinked(t, parent);
      forall i | 0 <= i < |chain|
        ensures Linked(t, chain, i) && t.versions[chain[i]].trailId == t.versions[id].trailId
      {
        if i < |earlier| {
          assert Linked(t, earlier, i);
          assert chain[i] == earlier[i];
        }
      }
    }
  }

  /** Every trail is one chain from version 1 to its head that holds all its versions, each linked
      to the one before through its parent and through its claim's parent. */
  lemma TrailIsOneChain(t: Trails, trailId: Id)
    requires TrailsSound(t) && trailId in t.heads
    ensures t.heads[trailId].0 in t.versions
    ensures
      var chain := ChainTo(t, t.heads[trailId].0);
      && |chain| == t.heads[trailId].1
      && (forall i :: 0 <= i < |chain| ==> Linked(t, chain, i))
      && (forall id :: id in t.versions && t.versions[id].trailId == trailId <==> id in chain)
  {
    var head := t.heads[trailId].0;
    assert HeadSound(t, trailId);
    ChainIsLinked(t, head);
    var chain := ChainTo(t, head);
    forall id
      ensures id in t.versions && t.versions[id].trailId == trailId <==> id in chain
    {
      if id in t.versions && t.versions[id].trailId == trailId {
        assert VersionSound(t, id);
        var i := t.versions[id].version - 1;
        assert Linked(t, chain, i);
        assert chain[i] == id;
      }
    }
  }

  // ---- the dictionaries, filled in place ----

  class TrailTables {
    var evidence: map<Id, Evidence>
    var claims: map<ClaimKey, Claim>
    var versions: map<Id, TrailVersion>
    var rows: Rows
    var heads: map<Id, (Id, nat)>

    function Contents(): Trails
      reads this
    {
      Trails(evidence, claims, versions, rows, heads)
    }

    constructor ()
      ensures Contents() == NO_TRAILS
    {
      evidence, claims, versions, rows, heads := map[], map[], map[], map[], map[];
    }

    method RecordEvidence(e: Evidence) returns (ok: bool)
      modifies this`evidence
      ensures ok <==> AddEvidence(old(Contents()), e).Ok?
      ensures ok ==> Contents() == AddEvidence(old(Contents()), e).value
    {
      ok := e.id !in evidence;
      if ok {
        evidence := evidence[e.id := e];
      }
    }

    method RecordClaim(c: Claim) returns (ok: bool)
      modifies this`claims
      ensures ok <==> AddClaim(old(Contents()), c).Ok?
      ensures ok ==> Contents() == AddClaim(old(Contents()), c).value
    {
      ok := c.key !in claims;
      if ok {
        claims := claims[c.key := c];
      }
    }

    method RecordVersion(governing: Digest, v: TrailVersion, added: seq<(RowKind, TrailRow)>) returns (ok: bool)
      modifies this`versions, this`rows, this`heads
      ensures ok <==> AddVersion(old(Contents()), governing, v, added).Ok?
      ensures ok ==> Contents() == AddVersion(old(Contents()), governing, v, added).value
    {
      if v.governing != governing || !Continues(Contents(), v) || v.claim !in claims || v.id in versions {
        return false;
      }
      ghost var before, keyed := rows, KeyedRows(added);
      versions := versions[v.id := v];
      for i := 0 to |added|
        invariant AddRows(before, keyed[..i]) == Ok(rows)
        invariant versions == old(versions)[v.id := v] && heads == old(heads)
      {
        var (kind, row) := added[i];
        FoldSnoc(AddRow(), before, keyed[..i], keyed[i]);
        assert keyed[..i + 1] == keyed[..i] + [keyed[i]];
        if (kind, row.id) in rows {
          if AddRows(before, keyed).Ok? {
            FoldPrefix(AddRow(), before, keyed, i + 1);
          }
          return false;
        }
        rows := rows[(kind, row.id) := row];
      }
      assert keyed[..|added|] == keyed;
      heads := heads[v.trailId := (v.id, v.version)];
      return true;
    }
  }
}
