/** The audit log and the stored transactions that it has to account for, one for one. */
module AuditLog {
  import opened Common
  import opened Ordering
  import opened ReplayTables

  datatype Proposal<C> = Proposal(id: Id, content: C)

  datatype Decision = Decision(accepted: bool, body: string)

  datatype Stored<C> = Stored(proposal: Proposal<C>, decision: Decision, fingerprint: Option<Digest>, createdAt: Time)

  datatype AuditRecord<C> = AuditRecord(
    sequence: nat, proposal: Proposal<C>, decision: Decision, fingerprint: Option<Digest>, persisted: bool, governing: Digest)

  /** Canonical bytes are compared; they are injective, so the values stand for them. */
  datatype Key<C> = Key(proposal: Proposal<C>, decision: Decision, fingerprint: Option<Digest>)

  function KeyOf<C>(t: Stored<C>): Key<C>
  {
    Key(t.proposal, t.decision, t.fingerprint)
  }

  function RecordKey<C>(r: AuditRecord<C>): Key<C>
  {
    Key(r.proposal, r.decision, r.fingerprint)
  }

  function Keys<C>(transactions: seq<Stored<C>>): seq<Key<C>>
  {
    seq(|transactions|, i requires 0 <= i < |transactions| => KeyOf(transactions[i]))
  }

  /** The keys of the persisted records, in audit order. */
  function PersistedKeys<C>(records: seq<AuditRecord<C>>): seq<Key<C>>
  {
    if records == [] then []
    else
      var last := records[|records| - 1];
      PersistedKeys(records[..|records| - 1]) + (if last.persisted then [RecordKey(last)] else [])
  }

  /** Every transaction has exactly one persisted record, every record says whether its transaction
      is stored, and accepted decisions are. */
  predicate Consistent<C(==)>(transactions: seq<Stored<C>>, records: seq<AuditRecord<C>>)
  {
    && (forall i :: 0 <= i < |transactions| ==> multiset(PersistedKeys(records))[KeyOf(transactions[i])] == 1)
    && (forall j :: 0 <= j < |records| ==> RecordHolds(transactions, records[j]))
  }

  predicate RecordHolds<C(==)>(transactions: seq<Stored<C>>, r: AuditRecord<C>)
  {
    && (RecordKey(r) in Keys(transactions) <==> r.persisted)
    && (r.decision.accepted ==> r.persisted)
  }

  method KeySet<C(==)>(transactions: seq<Stored<C>>) returns (keys: set<Key<C>>)
    ensures forall key :: key in keys <==> key in Keys(transactions)
  {
    keys := {};
    for i := 0 to |transactions|
      invariant forall key :: key in keys <==> key in Keys(transactions[..i])
    {
      assert Keys(transactions[..i + 1]) == Keys(transactions[..i]) + [KeyOf(transactions[i])];
      keys := keys + {KeyOf(transactions[i])};
    }
    assert transactions[..|transactions|] == transactions;
  }

  method PersistedCounts<C(==)>(records: seq<AuditRecord<C>>) returns (counts: multiset<Key<C>>)
    ensures counts == multiset(PersistedKeys(records))
  {
    hide PersistedKeys;
    counts := multiset{};
    PersistedKeysOfNone<C>();
    for j := 0 to |records|
      invariant counts == multiset(PersistedKeys(records[..j]))
    {
      PersistedKeysSnoc(records[..j], records[j]);
      assert records[..j + 1] == records[..j] + [records[j]];
      if records[j].persisted {
        counts := counts + multiset{RecordKey(records[j])};
      }
    }
    assert records[..|records|] == records;
  }

  lemma PersistedKeysOfNone<C>()
    ensures PersistedKeys<C>([]) == []
  {}

  /** `_require_transaction_audit_consistency`, with its set of keys and its counter. */
  method RequireConsistency<C(==)>(transactions: seq<Stored<C>>, records: seq<AuditRecord<C>>) returns (ok: bool)
    ensures ok <==> Consistent(transactions, records)
  {
    hide PersistedKeys, Keys;
    var keys := KeySet(transactions);
    var counts := PersistedCounts(records);
    for i := 0 to |transactions|
      invariant forall k :: 0 <= k < i ==> counts[KeyOf(transactions[k])] == 1
    {
      if counts[KeyOf(transactions[i])] != 1 {
        return false;
      }
    }
    for j := 0 to |records|
      invariant forall k :: 0 <= k < j ==> RecordHolds(transactions, records[k])
    {
      if (RecordKey(records[j]) in keys) != records[j].persisted || (records[j].decision.accepted && !records[j].persisted) {
        assert !RecordHolds(transactions, records[j]);
        return false;
      }
    }
    return true;
  }

  lemma PersistedKeysSnoc<C>(records: seq<AuditRecord<C>>, r: AuditRecord<C>)
    ensures PersistedKeys(records + [r]) == PersistedKeys(records) + (if r.persisted then [RecordKey(r)] else [])
  {}

  lemma {:induction false} PersistedKeysAre<C>(records: seq<AuditRecord<C>>)
    ensures forall key :: key in PersistedKeys(records) <==> exists j :: 0 <= j < |records| && records[j].persisted && RecordKey(records[j]) == key
  {
    if records != [] {
      PersistedKeysAre(records[..|records| - 1]);
    }
  }

  ghost predicate UniqueIds<C>(transactions: seq<Stored<C>>)
  {
    forall i, j :: 0 <= i < j < |transactions| ==> transactions[i].proposal.id != transactions[j].proposal.id
  }

  /** The log accounts for the transactions: the same keys, equally often, and nothing else. */
  ghost predicate OneForOne<C>(transactions: seq<Stored<C>>, records: seq<AuditRecord<C>>)
  {
    && multiset(Keys(transactions)) == multiset(PersistedKeys(records))
    && (forall j :: 0 <= j < |records| && !records[j].persisted ==> RecordKey(records[j]) !in Keys(transactions))
    && (forall j :: 0 <= j < |records| && records[j].decision.accepted ==> records[j].persisted)
  }

  lemma CountOne<C>(transactions: seq<Stored<C>>, records: seq<AuditRecord<C>>, key: Key<C>)
    requires Consistent(transactions, records)
    ensures multiset(PersistedKeys(records))[key] <= 1
    ensures key in PersistedKeys(records) <==> key in Keys(transactions)
  {
    PersistedKeysAre(records);
    assert key in multiset(PersistedKeys(records)) <==> key in PersistedKeys(records);
    if key in Keys(transactions) {
      var i :| 0 <= i < |transactions| && Keys(transactions)[i] == key;
      assert multiset(PersistedKeys(records))[KeyOf(transactions[i])] == 1;
    }
    if key in PersistedKeys(records) {
      var j :| 0 <= j < |records| && records[j].persisted && RecordKey(records[j]) == key;
      assert RecordHolds(transactions, records[j]);
    }
  }

  /** The check holds exactly when the log accounts for the transactions one for one, as long as no
      two transactions have the same key; proposal ids are a primary key, so none do. */
  lemma ConsistentIsOneForOne<C>(transactions: seq<Stored<C>>, records: seq<AuditRecord<C>>)
    requires Distinct(Keys(transactions))
    ensures Consistent(transactions, records) <==> OneForOne(transactions, records)
  {
    var keys, persisted := Keys(transactions), PersistedKeys(records);
    DistinctMultiset(keys);
    PersistedKeysAre(records);
    if Consistent(transactions, records) {
      forall key
        ensures multiset(persisted)[key] <= 1 && (key in keys <==> key in persisted)
      {
        CountOne(transactions, records, key);
      }
      SameCounts(keys, persisted);
      forall j | 0 <= j < |records|
        ensures records[j].persisted <==> RecordKey(records[j]) in keys
        ensures records[j].decision.accepted ==> records[j].persisted
      {
        assert RecordHolds(transactions, records[j]);
      }
    }
    if OneForOne(transactions, records) {
      OneForOneHolds(transactions, records);
    }
  }

  lemma OneForOneHolds<C>(transactions: seq<Stored<C>>, records: seq<AuditRecord<C>>)
    requires Distinct(Keys(transactions)) && OneForOne(transactions, records)
    ensures Consistent(transactions, records)
  {
    var keys, persisted := Keys(transactions), PersistedKeys(records);
    DistinctMultiset(keys);
    PersistedKeysAre(records);
    forall i | 0 <= i < |transactions|
      ensures multiset(persisted)[KeyOf(transactions[i])] == 1
    {
      assert keys[i] in multiset(keys);
    }
    forall j | 0 <= j < |records|
      ensures RecordHolds(transactions, records[j])
    {
      if records[j].persisted {
        assert RecordKey(records[j]) in persisted;
        assert RecordKey(records[j]) in multiset(persisted);
        assert RecordKey(records[j]) in multiset(keys);
      }
    }
  }

  lemma UniqueIdsDistinct<C>(transactions: seq<Stored<C>>)
    requires UniqueIds(transactions)
    ensures Distinct(Keys(transactions)) && Distinct(transactions)
  {}

  /** Without that key the check would not notice a transaction stored twice. */
  lemma DuplicateRowsPass<C>(t: Stored<C>, governing: Digest)
    ensures
      var records := [AuditRecord(1, t.proposal, t.decision, t.fingerprint, true, governing)];
      Consistent([t, t], records) && !OneForOne([t, t], records)
  {
    var records := [AuditRecord(1, t.proposal, t.decision, t.fingerprint, true, governing)];
    assert records[..0] == [];
    assert PersistedKeys(records) == [KeyOf(t)];
    assert Keys([t, t]) == [KeyOf(t), KeyOf(t)];
    assert multiset(Keys([t, t]))[KeyOf(t)] == 2;
  }

  // ---- accepted transactions in audit order ----

  function ById<C>(transactions: seq<Stored<C>>): map<Id, Stored<C>>
  {
    if transactions == [] then map[]
    else
      var last := transactions[|transactions| - 1];
      ById(transactions[..|transactions| - 1])[last.proposal.id := last]
  }

  predicate TakesEffect<C>(r: AuditRecord<C>)
  {
    r.persisted && r.decision.accepted
  }

  /** The lookups of `accepted_transactions_in_audit_order`; a missing id raises. */
  function AcceptedInOrder<C>(byId: map<Id, Stored<C>>, records: seq<AuditRecord<C>>): Result<seq<Stored<C>>>
  {
    if records == [] then Ok([])
    else
      var r := records[|records| - 1];
      var earlier := AcceptedInOrder(byId, records[..|records| - 1]);
      if earlier.Raised? || (TakesEffect(r) && r.proposal.id !in byId) then Raised
      else Ok(earlier.value + (if TakesEffect(r) then [byId[r.proposal.id]] else []))
  }

  lemma {:induction false} ByIdFinds<C>(transactions: seq<Stored<C>>)
    requires UniqueIds(transactions)
    ensures forall i :: 0 <= i < |transactions| ==> transactions[i].proposal.id in ById(transactions) && ById(transactions)[transactions[i].proposal.id] == transactions[i]
    ensures forall id :: id in ById(transactions) ==> ById(transactions)[id] in transactions && ById(transactions)[id].proposal.id == id
  {
    if transactions != [] {
      ByIdFinds(transactions[..|transactions| - 1]);
    }
  }

  /** A persisted record's transaction is the one found under its proposal id. */
  lemma RecordFinds<C>(transactions: seq<Stored<C>>, records: seq<AuditRecord<C>>, j: nat)
    requires UniqueIds(transactions) && Consistent(transactions, records) && j < |records| && records[j].persisted
    ensures records[j].proposal.id in ById(transactions)
    ensures KeyOf(ById(transactions)[records[j].proposal.id]) == RecordKey(records[j])
    ensures ById(transactions)[records[j].proposal.id] in transactions
  {
    assert RecordHolds(transactions, records[j]);
    var i :| 0 <= i < |transactions| && Keys(transactions)[i] == RecordKey(records[j]);
    ByIdFinds(transactions);
    assert KeyOf(transactions[i]) == RecordKey(records[j]);
  }

  lemma {:induction false} OrderedMembers<C>(transactions: seq<Stored<C>>, records: seq<AuditRecord<C>>, n: nat)
    requires UniqueIds(transactions) && Consistent(transactions, records) && n <= |records|
    ensures AcceptedInOrder(ById(transactions), records[..n]).Ok?
    ensures forall t :: t in AcceptedInOrder(ById(transactions), records[..n]).value <==>
      exists j :: 0 <= j < n && TakesEffect(records[j]) && t in transactions && KeyOf(t) == RecordKey(records[j])
  {
    hide Consistent, UniqueIds, ById;
    if n > 0 {
      OrderedMembers(transactions, records, n - 1);
      assert records[..n][..n - 1] == records[..n - 1];
      if TakesEffect(records[n - 1]) {
        RecordFinds(transactions, records, n - 1);
        forall t | t in transactions && KeyOf(t) == RecordKey(records[n - 1])
          ensures t == ById(transactions)[records[n - 1].proposal.id]
        {
          ByIdFinds(transactions);
        }
      }
    }
  }

  /** No key is persisted twice. */
  lemma PersistedKeysDiffer<C>(transactions: seq<Stored<C>>, records: seq<AuditRecord<C>>, n: nat, j: nat)
    requires Consistent(transactions, records) && j < n < |records| && records[j].persisted && records[n].persisted
    ensures RecordKey(records[j]) != RecordKey(records[n])
  {
    hide PersistedKeys, Consistent;
    var key, earlier := RecordKey(records[j]), PersistedKeys(records[..n]);
    PersistedKeysAre(records[..n]);
    assert records[..n][j].persisted && RecordKey(records[..n][j]) == key;
    assert key in earlier;
    assert key in multiset(earlier);
    PersistedKeysSnoc(records[..n], records[n]);
    assert records[..n] + [records[n]] == records[..n + 1];
    KeysPrefix(records, n + 1);
    CountOne(transactions, records, key);
    assert multiset(earlier + [RecordKey(records[n])]) == multiset(earlier) + multiset{RecordKey(records[n])};
  }

  lemma {:induction false} KeysPrefix<C>(records: seq<AuditRecord<C>>, n: nat)
    requires n <= |records|
    ensures multiset(PersistedKeys(records[..n])) <= multiset(PersistedKeys(records))
    decreases |records| - n
  {
    if n == |records| {
      assert records[..n] == records;
    } else {
      KeysPrefix(records, n + 1);
      assert records[..n + 1][..n] == records[..n];
    }
  }

  lemma NewlyOrdered<C>(transactions: seq<Stored<C>>, records: seq<AuditRecord<C>>, n: nat)
    requires UniqueIds(transactions) && Consistent(transactions, records) && n < |records| && TakesEffect(records[n])
    ensures AcceptedInOrder(ById(transactions), records[..n]).Ok?
    ensures records[n].proposal.id in ById(transactions)
    ensures ById(transactions)[records[n].proposal.id] !in AcceptedInOrder(ById(transactions), records[..n]).value
  {
    hide Consistent, UniqueIds, ById, AcceptedInOrder;
    OrderedMembers(transactions, records, n);
    RecordFinds(transactions, records, n);
    var t := ById(transactions)[records[n].proposal.id];
    if t in AcceptedInOrder(ById(transactions), records[..n]).value {
      var j :| 0 <= j < n && TakesEffect(records[j]) && t in transactions && KeyOf(t) == RecordKey(records[j]);
      PersistedKeysDiffer(transactions, records, n, j);
    }
  }

  lemma DistinctSnoc<T>(xs: seq<T>, x: T)
    requires Distinct(xs) && x !in xs
    ensures Distinct(xs + [x])
  {}

  lemma {:induction false} OrderedDistinctly<C>(transactions: seq<Stored<C>>, records: seq<AuditRecord<C>>, n: nat)
    requires UniqueIds(transactions) && Consistent(transactions, records) && n <= |records|
    ensures AcceptedInOrder(ById(transactions), records[..n]).Ok?
    ensures Distinct(AcceptedInOrder(ById(transactions), records[..n]).value)
  {
    hide Consistent, UniqueIds, ById, Distinct;
    OrderedMembers(transactions, records, n);
    if n == 0 {
      NothingDistinct<Stored<C>>();
    } else {
      OrderedDistinctly(transactions, records, n - 1);
      assert records[..n][..n - 1] == records[..n - 1];
      if TakesEffect(records[n - 1]) {
        NewlyOrdered(transactions, records, n - 1);
        DistinctSnoc(AcceptedInOrder(ById(transactions), records[..n - 1]).value, ById(transactions)[records[n - 1].proposal.id]);
      } else {
        var earlier := AcceptedInOrder(ById(transactions), records[..n - 1]).value;
        assert earlier + [] == earlier;
      }
    }
  }

  lemma NothingDistinct<T>()
    ensures Distinct<T>([])
  {}

  function IsAccepted<C>(): Stored<C> -> bool
  {
    (t: Stored<C>) => t.decision.accepted
  }

  function Effective<C>(): AuditRecord<C> -> bool
  {
    (r: AuditRecord<C>) => TakesEffect(r)
  }

  /** The i-th result is the transaction of the i-th record that takes effect. */
  ghost predicate FollowsRecords<C>(ordered: seq<Stored<C>>, effective: seq<AuditRecord<C>>, transactions: seq<Stored<C>>)
  {
    && |ordered| == |effective|
    && forall i :: 0 <= i < |ordered| ==> ordered[i] in transactions && KeyOf(ordered[i]) == RecordKey(effective[i])
  }

  lemma {:induction false} OrderedFollows<C>(transactions: seq<Stored<C>>, records: seq<AuditRecord<C>>, n: nat)
    requires UniqueIds(transactions) && Consistent(transactions, records) && n <= |records|
    ensures
      var ordered := AcceptedInOrder(ById(transactions), records[..n]);
      ordered.Ok? && FollowsRecords(ordered.value, Filter(Effective(), records[..n]), transactions)
  {
    hide Consistent, UniqueIds, ById, Filter;
    if n == 0 {
      NoneFollows(transactions);
    } else {
      OrderedFollows(transactions, records, n - 1);
      assert records[..n] == records[..n - 1] + [records[n - 1]];
      assert records[..n][..n - 1] == records[..n - 1];
      FilterSnoc(Effective(), records[..n - 1], records[n - 1]);
      if TakesEffect(records[n - 1]) {
        RecordFinds(transactions, records, n - 1);
      }
    }
  }

  lemma NoneFollows<C>(transactions: seq<Stored<C>>)
    ensures FollowsRecords([], Filter<AuditRecord<C>>(Effective(), []), transactions)
  {}

  /** With unique proposal ids no lookup of a consistent log fails, and the transactions come in the
      order of the records that take effect. */
  lemma AcceptedInAuditOrder<C>(transactions: seq<Stored<C>>, records: seq<AuditRecord<C>>)
    requires UniqueIds(transactions) && Consistent(transactions, records)
    ensures
      var ordered := AcceptedInOrder(ById(transactions), records);
      ordered.Ok? && FollowsRecords(ordered.value, Filter(Effective(), records), transactions)
  {
    assert records[..|records|] == records;
    OrderedFollows(transactions, records, |records|);
  }

  /** With unique proposal ids the consistent log orders the accepted transactions: no lookup fails,
      and every accepted transaction occurs exactly once. */
  lemma AcceptedInOrderPermutes<C>(transactions: seq<Stored<C>>, records: seq<AuditRecord<C>>)
    requires UniqueIds(transactions) && Consistent(transactions, records)
    ensures
      var ordered := AcceptedInOrder(ById(transactions), records);
      ordered.Ok? && multiset(ordered.value) == multiset(Filter(IsAccepted(), transactions))
  {
    assert records[..|records|] == records;
    OrderedMembers(transactions, records, |records|);
    OrderedDistinctly(transactions, records, |records|);
    var ordered, accepted := AcceptedInOrder(ById(transactions), records).value, Filter(IsAccepted(), transactions);
    UniqueIdsDistinct(transactions);
    FilterDistinct(IsAccepted(), transactions);
    FilterMembers(IsAccepted(), transactions);
    forall t
      ensures t in ordered <==> t in accepted
    {
      if t in accepted {
        AcceptedHasRecord(transactions, records, t);
      }
    }
    SameMembers(ordered, accepted);
  }

  lemma AcceptedHasRecord<C>(transactions: seq<Stored<C>>, records: seq<AuditRecord<C>>, t: Stored<C>)
    requires Consistent(transactions, records) && t in transactions && t.decision.accepted
    ensures exists j :: 0 <= j < |records| && TakesEffect(records[j]) && KeyOf(t) == RecordKey(records[j])
  {
    var i :| 0 <= i < |transactions| && transactions[i] == t;
    assert Keys(transactions)[i] == KeyOf(t);
    CountOne(transactions, records, KeyOf(t));
    PersistedKeysAre(records);
  }

  lemma SameMembers<T>(xs: seq<T>, ys: seq<T>)
    requires Distinct(xs) && Distinct(ys) && forall x :: x in xs <==> x in ys
    ensures multiset(xs) == multiset(ys)
  {
    DistinctMultiset(xs);
    DistinctMultiset(ys);
    SameCounts(xs, ys);
  }

  lemma SameCounts<T>(xs: seq<T>, ys: seq<T>)
    requires forall x :: multiset(xs)[x] <= 1 && multiset(ys)[x] <= 1
    requires forall x :: x in xs <==> x in ys
    ensures multiset(xs) == multiset(ys)
  {
    forall x
      ensures multiset(xs)[x] == multiset(ys)[x]
    {
      assert x in multiset(xs) <==> x in xs;
      assert x in multiset(ys) <==> x in ys;
    }
  }
}
