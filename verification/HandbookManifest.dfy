/** The declarations of a handbook manifest, whose order carries no meaning: the canonical payload
    is the same exactly for rearrangements, and link tables are the inverse relations of the
    declarations. */
module HandbookManifest {
  import opened Common
  import opened Ordering

  datatype Binding = Binding(commit: string, relativePath: string, symbol: string, sourceHash: string)

  /** `lists` holds the string-list fields of an entry by field name. */
  datatype Behavior = Behavior(id: string, summary: string, lists: map<string, seq<string>>, bindings: seq<Binding>)

  datatype Manifest = Manifest(repository: string, commit: string, behaviors: seq<Behavior>)

  predicate BindingLeq(a: Binding, b: Binding)
  {
    PairLeq((a.relativePath, a.symbol), (b.relativePath, b.symbol))
  }

  predicate BehaviorLeq(a: Behavior, b: Behavior)
  {
    StringLeq(a.id, b.id)
  }

  lemma DeclarationsAreOrdered()
    ensures Orders(BindingLeq) && Orders(BehaviorLeq) && Orders(StringLeq)
  {
    StringsAreOrdered();
    PairsAreOrdered();
  }

  /** What the manifest validators demand of identities. */
  ghost predicate Coherent(m: Manifest)
  {
    && (forall i, j :: 0 <= i < j < |m.behaviors| ==> m.behaviors[i].id != m.behaviors[j].id)
    && (forall i :: 0 <= i < |m.behaviors| ==> UniqueBindings(m.behaviors[i]))
  }

  ghost predicate UniqueBindings(b: Behavior)
  {
    forall i, j :: 0 <= i < j < |b.bindings| ==>
      (b.bindings[i].relativePath, b.bindings[i].symbol) != (b.bindings[j].relativePath, b.bindings[j].symbol)
  }

  function NormalizedBehavior(b: Behavior): Behavior
  {
    Behavior(b.id, b.summary, map f | f in b.lists :: Sort(StringLeq, b.lists[f]), Sort(BindingLeq, b.bindings))
  }

  function NormalizedAll(bs: seq<Behavior>): seq<Behavior>
  {
    seq(|bs|, i requires 0 <= i < |bs| => NormalizedBehavior(bs[i]))
  }

  /** The payload that `_manifest_hash` hashes. */
  function Canonical(m: Manifest): Manifest
  {
    m.(behaviors := Sort(BehaviorLeq, NormalizedAll(m.behaviors)))
  }

  // ---- arrangements ----

  /** The same declaration with its list fields and bindings in another order. */
  ghost predicate SameBehavior(a: Behavior, b: Behavior)
  {
    && a.id == b.id && a.summary == b.summary
    && a.lists.Keys == b.lists.Keys
    && (forall f :: f in a.lists ==> multiset(a.lists[f]) == multiset(b.lists[f]))
    && multiset(a.bindings) == multiset(b.bindings)
  }

  /** One manifest is the other with behaviours, list fields and bindings rearranged. */
  ghost predicate Rearranged(m1: Manifest, m2: Manifest)
  {
    && m1.repository == m2.repository && m1.commit == m2.commit
    && |m1.behaviors| == |m2.behaviors|
    && Covers(m1.behaviors, m2.behaviors) && Covers(m2.behaviors, m1.behaviors)
  }

  ghost predicate Covers(xs: seq<Behavior>, ys: seq<Behavior>)
  {
    forall i :: 0 <= i < |xs| ==> exists j :: 0 <= j < |ys| && SameBehavior(xs[i], ys[j])
  }

  lemma RearrangedNormalizes(a: Behavior, b: Behavior)
    requires SameBehavior(a, b) && UniqueBindings(a)
    ensures NormalizedBehavior(a) == NormalizedBehavior(b)
  {
    hide Sort, Orders;
    DeclarationsAreOrdered();
    StringsAreOrdered();
    forall f | f in a.lists
      ensures Sort(StringLeq, a.lists[f]) == Sort(StringLeq, b.lists[f])
    {
      SortForgetsOrder(StringLeq, a.lists[f], b.lists[f]);
    }
    BindingsSeparate(a);
    SortForgetsOrder(BindingLeq, a.bindings, b.bindings);
  }

  lemma BindingsSeparate(b: Behavior)
    requires UniqueBindings(b)
    ensures Separates(BindingLeq, b.bindings)
  {
    PairsAreOrdered();
  }

  lemma NormalFormsAreRearranged(a: Behavior, b: Behavior)
    requires NormalizedBehavior(a) == NormalizedBehavior(b)
    ensures SameBehavior(a, b)
  {
    hide Sort, Orders, Ascends;
    DeclarationsAreOrdered();
    var na, nb := NormalizedBehavior(a), NormalizedBehavior(b);
    assert a.lists.Keys == na.lists.Keys == nb.lists.Keys == b.lists.Keys;
    forall f | f in a.lists
      ensures multiset(a.lists[f]) == multiset(b.lists[f])
    {
      SortAscends(StringLeq, a.lists[f]);
      SortAscends(StringLeq, b.lists[f]);
      assert na.lists[f] == nb.lists[f];
    }
    SortAscends(BindingLeq, a.bindings);
    SortAscends(BindingLeq, b.bindings);
  }

  /** Two entries have the same normal form exactly when one is a rearrangement of the other. */
  lemma NormalizationExact(a: Behavior, b: Behavior)
    requires UniqueBindings(a)
    ensures SameBehavior(a, b) <==> NormalizedBehavior(a) == NormalizedBehavior(b)
  {
    hide SameBehavior, NormalizedBehavior;
    if SameBehavior(a, b) {
      RearrangedNormalizes(a, b);
    }
    if NormalizedBehavior(a) == NormalizedBehavior(b) {
      NormalFormsAreRearranged(a, b);
    }
  }

  lemma NormalizedDistinct(m: Manifest)
    requires Coherent(m)
    ensures Distinct(NormalizedAll(m.behaviors)) && Separates(BehaviorLeq, NormalizedAll(m.behaviors))
  {
    StringsAreOrdered();
  }

  lemma DistinctSameElements<T>(xs: seq<T>, ys: seq<T>)
    requires Distinct(xs) && Distinct(ys)
    ensures multiset(xs) == multiset(ys) <==> (forall x :: x in xs <==> x in ys)
  {
    DistinctMultiset(xs);
    DistinctMultiset(ys);
    if forall x :: x in xs <==> x in ys {
      forall x ensures multiset(xs)[x] == multiset(ys)[x]
      {
        assert x in multiset(xs) <==> x in xs;
        assert x in multiset(ys) <==> x in ys;
      }
    }
    if multiset(xs) == multiset(ys) {
      forall x ensures x in xs <==> x in ys
      {
        assert x in multiset(xs) <==> x in xs;
        assert x in multiset(ys) <==> x in ys;
      }
    }
  }

  lemma CoversExactly(xs: seq<Behavior>, ys: seq<Behavior>)
    requires forall i :: 0 <= i < |xs| ==> UniqueBindings(xs[i])
    ensures Covers(xs, ys) <==> forall x :: x in NormalizedAll(xs) ==> x in NormalizedAll(ys)
  {
    var n1, n2 := NormalizedAll(xs), NormalizedAll(ys);
    forall i, j | 0 <= i < |xs| && 0 <= j < |ys|
      ensures n1[i] == n2[j] <==> SameBehavior(xs[i], ys[j])
    {
      NormalizationExact(xs[i], ys[j]);
    }
    if Covers(xs, ys) {
      forall x | x in n1
        ensures x in n2
      {
        var i :| 0 <= i < |n1| && n1[i] == x;
        var j :| 0 <= j < |ys| && SameBehavior(xs[i], ys[j]);
        assert n2[j] == x;
      }
    }
    if forall x :: x in n1 ==> x in n2 {
      forall i | 0 <= i < |xs|
        ensures exists j :: 0 <= j < |ys| && SameBehavior(xs[i], ys[j])
      {
        assert n1[i] in n2;
        var j :| 0 <= j < |n2| && n2[j] == n1[i];
        assert SameBehavior(xs[i], ys[j]);
      }
    }
  }

  /** Two coherent manifests have the same canonical payload exactly when one is a
      rearrangement of the other: order never matters and nothing else is lost. */
  lemma CanonicalExactly(m1: Manifest, m2: Manifest)
    requires Coherent(m1) && Coherent(m2)
    ensures Canonical(m1) == Canonical(m2) <==> Rearranged(m1, m2)
  {
    var n1, n2 := NormalizedAll(m1.behaviors), NormalizedAll(m2.behaviors);
    DeclarationsAreOrdered();
    NormalizedDistinct(m1);
    NormalizedDistinct(m2);
    SortForgetsOrder(BehaviorLeq, n1, n2);
    DistinctSameElements(n1, n2);
    CoversExactly(m1.behaviors, m2.behaviors);
    CoversExactly(m2.behaviors, m1.behaviors);
    if multiset(n1) == multiset(n2) {
      assert |n1| == |multiset(n1)| == |multiset(n2)| == |n2|;
    }
  }

  // ---- sorting and normal forms ----

  lemma {:induction false} SortCommutes(bs: seq<Behavior>)
    ensures NormalizedAll(Sort(BehaviorLeq, bs)) == Sort(BehaviorLeq, NormalizedAll(bs))
  {
    if bs == [] {
    } else {
      SortCommutes(bs[1..]);
      InsertCommutes(bs[0], Sort(BehaviorLeq, bs[1..]));
      assert NormalizedAll(bs)[1..] == NormalizedAll(bs[1..]);
    }
  }

  lemma {:induction false} InsertCommutes(b: Behavior, bs: seq<Behavior>)
    ensures NormalizedAll(Insert(BehaviorLeq, b, bs)) == Insert(BehaviorLeq, NormalizedBehavior(b), NormalizedAll(bs))
  {
    if bs == [] || BehaviorLeq(b, bs[0]) {
      assert NormalizedAll([b] + bs) == [NormalizedBehavior(b)] + NormalizedAll(bs);
    } else {
      InsertCommutes(b, bs[1..]);
      assert NormalizedAll(bs)[1..] == NormalizedAll(bs[1..]);
      assert NormalizedAll([bs[0]] + Insert(BehaviorLeq, b, bs[1..]))
          == [NormalizedBehavior(bs[0])] + NormalizedAll(Insert(BehaviorLeq, b, bs[1..]));
    }
  }

  lemma {:induction false} SortIdempotent<T(!new)>(leq: (T, T) -> bool, xs: seq<T>)
    requires Orders(leq)
    ensures Sort(leq, Sort(leq, xs)) == Sort(leq, xs)
  {
    SortAscends(leq, xs);
    SortOfAscending(leq, Sort(leq, xs));
  }

  lemma {:induction false} SortOfAscending<T>(leq: (T, T) -> bool, xs: seq<T>)
    requires Ascends(leq, xs)
    ensures Sort(leq, xs) == xs
  {
    if xs != [] {
      SortOfAscending(leq, xs[1..]);
      assert xs == [xs[0]] + xs[1..];
      assert |xs| > 1 ==> leq(xs[0], xs[1]);
    }
  }

  /** The canonical payload's entries are the sorted entries in normal form. */
  lemma CanonicalEntries(m: Manifest)
    ensures Canonical(m).behaviors == NormalizedAll(Sort(BehaviorLeq, m.behaviors))
  {
    SortCommutes(m.behaviors);
  }

  // ---- what is declared ----

  const RULES := "governing_rule_version_ids"
  const TESTS := "test_paths"

  function ListOf(b: Behavior, field: string): seq<string>
  {
    if field in b.lists then b.lists[field] else []
  }

  /** The values that entries declare in one of their list fields. */
  function DeclaredValues(field: string, behaviors: seq<Behavior>): set<(string, string)>
  {
    set b, r | b in behaviors && r in ListOf(b, field) :: (r, b.id)
  }

  function DeclaredBindings(behaviors: seq<Behavior>): set<(Binding, string)>
  {
    set b, x | b in behaviors && x in b.bindings :: (x, b.id)
  }

  lemma SameMembers(a: Behavior, b: Behavior)
    requires SameBehavior(a, b)
    ensures forall x :: x in a.bindings <==> x in b.bindings
    ensures forall f, r :: r in ListOf(a, f) <==> r in ListOf(b, f)
  {
    forall x ensures x in a.bindings <==> x in b.bindings
    {
      assert x in multiset(a.bindings) <==> x in multiset(b.bindings);
    }
    forall f, r ensures r in ListOf(a, f) <==> r in ListOf(b, f)
    {
      if f in a.lists {
        assert r in multiset(a.lists[f]) <==> r in multiset(b.lists[f]);
      }
    }
  }

  lemma CoveredDeclarations(field: string, xs: seq<Behavior>, ys: seq<Behavior>)
    requires Covers(xs, ys)
    ensures DeclaredValues(field, xs) <= DeclaredValues(field, ys)
    ensures DeclaredBindings(xs) <= DeclaredBindings(ys)
  {
    forall i | 0 <= i < |xs|
      ensures forall r :: r in ListOf(xs[i], field) ==> (r, xs[i].id) in DeclaredValues(field, ys)
      ensures forall x :: x in xs[i].bindings ==> (x, xs[i].id) in DeclaredBindings(ys)
    {
      var x := xs[i];
      var j :| 0 <= j < |ys| && SameBehavior(x, ys[j]);
      SameMembers(x, ys[j]);
      assert ys[j] in ys;
    }
  }

  /** Rearranged manifests declare the same values in every list field. */
  lemma RearrangedDeclaresSameRules(m1: Manifest, m2: Manifest, field: string)
    requires Rearranged(m1, m2)
    ensures DeclaredValues(field, m1.behaviors) == DeclaredValues(field, m2.behaviors)
  {
    CoveredDeclarations(field, m1.behaviors, m2.behaviors);
    CoveredDeclarations(field, m2.behaviors, m1.behaviors);
  }

  /** Rearranged manifests declare the same behaviours for every source symbol. */
  lemma RearrangedDeclaresSameSources(m1: Manifest, m2: Manifest)
    requires Rearranged(m1, m2)
    ensures DeclaredBindings(m1.behaviors) == DeclaredBindings(m2.behaviors)
  {
    CoveredDeclarations(RULES, m1.behaviors, m2.behaviors);
    CoveredDeclarations(RULES, m2.behaviors, m1.behaviors);
  }

  // ---- link tables ----

  datatype Link<K> = Link(key: K, behaviorIds: seq<string>)

  /** `links` lists, in strictly ascending key order and with strictly ascending ids, exactly
      the declared (key, behaviour) pairs. */
  ghost predicate IsInverse<K>(leq: (K, K) -> bool, links: seq<Link<K>>, declared: set<(K, string)>)
  {
    && (forall i, j :: 0 <= i < j < |links| ==> leq(links[i].key, links[j].key) && links[i].key != links[j].key)
    && (forall i :: 0 <= i < |links| ==> links[i].behaviorIds != [] && Ascends(StringLeq, links[i].behaviorIds) && Distinct(links[i].behaviorIds))
    && (forall i, id :: 0 <= i < |links| && id in links[i].behaviorIds ==> (links[i].key, id) in declared)
    && (forall p :: p in declared ==> exists i :: 0 <= i < |links| && links[i].key == p.0 && p.1 in links[i].behaviorIds)
  }

  function Keys<K>(links: seq<Link<K>>): seq<K>
  {
    seq(|links|, i requires 0 <= i < |links| => links[i].key)
  }

  /** The inverse relation has one listing only, so link tables do not depend on the order the
      declarations were visited in. */
  lemma InverseIsUnique<K>(leq: (K, K) -> bool, a: seq<Link<K>>, b: seq<Link<K>>, declared: set<(K, string)>)
    requires forall x, y :: x in Keys(a) && y in Keys(a) && leq(x, y) && leq(y, x) ==> x == y
    requires IsInverse(leq, a, declared) && IsInverse(leq, b, declared)
    ensures a == b
  {
    SameKeys(leq, a, b, declared);
    SameKeys(leq, b, a, declared);
    AscendingSetUnique(leq, Keys(a), Keys(b));
    StringsAreOrdered();
    assert |a| == |Keys(a)| && |b| == |Keys(b)|;
    forall i | 0 <= i < |a|
      ensures a[i] == b[i]
    {
      assert Keys(a)[i] == Keys(b)[i];
      SameIds(leq, a, b, declared, i);
      SameIds(leq, b, a, declared, i);
      AscendingSetUnique(StringLeq, a[i].behaviorIds, b[i].behaviorIds);
    }
  }

  lemma SameKeys<K>(leq: (K, K) -> bool, a: seq<Link<K>>, b: seq<Link<K>>, declared: set<(K, string)>)
    requires IsInverse(leq, a, declared) && IsInverse(leq, b, declared)
    ensures forall k :: k in Keys(a) ==> k in Keys(b)
    ensures Ascends(leq, Keys(a)) && Distinct(Keys(a))
  {
    forall k | k in Keys(a)
      ensures k in Keys(b)
    {
      var i :| 0 <= i < |a| && Keys(a)[i] == k;
      var id := a[i].behaviorIds[0];
      assert id in a[i].behaviorIds && (k, id) in declared;
      var j :| 0 <= j < |b| && b[j].key == (k, id).0 && (k, id).1 in b[j].behaviorIds;
      assert Keys(b)[j] == k;
    }
  }

  lemma SameIds<K>(leq: (K, K) -> bool, a: seq<Link<K>>, b: seq<Link<K>>, declared: set<(K, string)>, i: int)
    requires IsInverse(leq, a, declared) && IsInverse(leq, b, declared)
    requires 0 <= i < |a| && i < |b| && a[i].key == b[i].key
    ensures forall id :: id in a[i].behaviorIds ==> id in b[i].behaviorIds
  {}

  ghost predicate Collects<K(!new)>(table: map<K, set<string>>, declared: set<(K, string)>)
  {
    && (forall k :: k in table ==> table[k] != {})
    && (forall k, id :: (k, id) in declared <==> k in table && id in table[k])
  }

  method ListLinks<K(==, !new)>(leq: (K, K) -> bool, table: map<K, set<string>>, ghost declared: set<(K, string)>)
    returns (links: seq<Link<K>>)
    requires Orders(leq)
    requires Collects(table, declared)
    ensures IsInverse(leq, links, declared)
  {
    StringsAreOrdered();
    var keys := SortedSet(leq, table.Keys);
    links := [];
    for i := 0 to |keys|
      invariant |links| == i
      invariant forall j :: 0 <= j < i ==> links[j].key == keys[j]
      invariant forall j :: 0 <= j < i ==> Ascends(StringLeq, links[j].behaviorIds) && Distinct(links[j].behaviorIds)
      invariant forall j, id :: 0 <= j < i ==> (id in links[j].behaviorIds <==> id in table[keys[j]])
    {
      var ids := SortedSet(StringLeq, table[keys[i]]);
      links := links + [Link(keys[i], ids)];
    }
    forall i | 0 <= i < |links|
      ensures links[i].behaviorIds != []
    {
      var id :| id in table[keys[i]];
      assert id in links[i].behaviorIds;
    }
    forall p | p in declared
      ensures exists i :: 0 <= i < |links| && links[i].key == p.0 && p.1 in links[i].behaviorIds
    {
      assert (p.0, p.1) == p;
      assert p.0 in keys;
      var i :| 0 <= i < |keys| && keys[i] == p.0;
      assert links[i].key == p.0;
    }
  }

  function Collected<K>(table: map<K, set<string>>, key: K, id: string): map<K, set<string>>
  {
    table[key := (if key in table then table[key] else {}) + {id}]
  }

  lemma CollectsMore<K(!new)>(table: map<K, set<string>>, declared: set<(K, string)>, key: K, id: string)
    requires Collects(table, declared)
    ensures Collects(Collected(table, key, id), declared + {(key, id)})
  {}

  function Pairs(rules: seq<string>, id: string): set<(string, string)>
  {
    set r | r in rules :: (r, id)
  }

  method CollectRules(table: map<string, set<string>>, rules: seq<string>, id: string, ghost declared: set<(string, string)>)
    returns (grown: map<string, set<string>>)
    requires Collects(table, declared)
    ensures Collects(grown, declared + Pairs(rules, id))
  {
    hide Collects, Collected;
    grown := table;
    assert declared + Pairs(rules[..0], id) == declared;
    for k := 0 to |rules|
      invariant Collects(grown, declared + Pairs(rules[..k], id))
    {
      assert declared + Pairs(rules[..k + 1], id) == declared + Pairs(rules[..k], id) + {(rules[k], id)} by {
        assert rules[..k + 1] == rules[..k] + [rules[k]];
      }
      CollectsMore(grown, declared + Pairs(rules[..k], id), rules[k], id);
      grown := Collected(grown, rules[k], id);
    }
    assert rules[..|rules|] == rules;
  }

  method RuleLinks(m: Manifest) returns (links: seq<Link<string>>)
    ensures IsInverse(StringLeq, links, DeclaredValues(RULES, m.behaviors))
  {
    var table: map<string, set<string>> := map[];
    for i := 0 to |m.behaviors|
      invariant Collects(table, DeclaredValues(RULES, m.behaviors[..i]))
    {
      var b := m.behaviors[i];
      table := CollectRules(table, ListOf(b, RULES), b.id, DeclaredValues(RULES, m.behaviors[..i]));
      assert m.behaviors[..i + 1] == m.behaviors[..i] + [b];
      assert DeclaredValues(RULES, m.behaviors[..i + 1]) == DeclaredValues(RULES, m.behaviors[..i]) + Pairs(ListOf(b, RULES), b.id);
    }
    assert m.behaviors[..|m.behaviors|] == m.behaviors;
    StringsAreOrdered();
    links := ListLinks(StringLeq, table, DeclaredValues(RULES, m.behaviors));
  }
}
