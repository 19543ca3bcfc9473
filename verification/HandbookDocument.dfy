/** Building a handbook: every declaration is checked against one commit of the repository, and the
    build either fails with its findings or renders the document. */
module HandbookDocument {
  import opened Common
  import opened Ordering
  import opened HandbookManifest

  // ---- the repository ----

  datatype File = File(contained: bool, present: bool, regular: bool)

  datatype Object = Absent | OtherObject | Commit

  datatype Fact = Fact(kind: string, startLine: nat, endLine: nat, hash: string)

  datatype Parsed = BadEncoding | BadSyntax | Symbols(facts: map<string, Fact>)

  datatype Blob = Blob(hash: string, parsed: Parsed)

  /** The checkout and the Git objects, as the build reads them. Blobs and cleanliness are those of
      a path at a commit. */
  datatype Tree = Tree(
    file: string -> File, objects: string -> Object, blob: (string, string) -> Option<Blob>,
    clean: (string, string) -> bool, python: string -> bool, moduleName: string -> string)

  // ---- findings ----

  datatype Code =
    | CommitMismatch | CommitNotFound | NotACommit
    | SourceNotFound | SourceNotRegular | SourceNotPython | CommitSourceMismatch | CheckoutStale
    | EncodingError | SyntaxError | SymbolNotFound | TestNotFound | TestNotRegular

  datatype Finding = Finding(code: Code, behaviorId: Option<string>, location: Option<string>)

  datatype Location = Location(
    behaviorId: string, commit: string, relativePath: string, moduleName: string, symbol: string, kind: string,
    startLine: nat, endLine: nat, sourceHash: string, symbolHash: string)

  /** One build's view of the repository; nothing is read from a commit that was not verified. */
  datatype View = View(tree: Tree, commit: string, verified: bool)

  function ViewOf(tree: Tree, m: Manifest, commit: string): View
  {
    View(tree, commit, commit == m.commit && tree.objects(commit).Commit?)
  }

  function CommitFindings(tree: Tree, m: Manifest, commit: string): seq<Finding>
  {
    if commit != m.commit then [Finding(CommitMismatch, None, None)]
    else match tree.objects(commit)
      case Absent => [Finding(CommitNotFound, None, None)]
      case OtherObject => [Finding(NotACommit, None, None)]
      case Commit => []
  }

  function Committed(v: View, path: string): Option<Blob>
  {
    if v.verified then v.tree.blob(v.commit, path) else None
  }

  function When(condition: bool, code: Code, id: string, place: string): seq<Finding>
  {
    if condition then [Finding(code, Some(id), Some(place))] else []
  }

  function BindingFindings(v: View, id: string, x: Binding): seq<Finding>
  {
    var place, file, blob := x.relativePath + ":" + x.symbol, v.tree.file(x.relativePath), Committed(v, x.relativePath);
    When(!file.present, SourceNotFound, id, place)
    + When(file.present && !file.regular, SourceNotRegular, id, place)
    + When(!v.tree.python(x.relativePath), SourceNotPython, id, place)
    + (if !v.verified then []
       else if blob.None? then When(true, CommitSourceMismatch, id, place)
       else When(blob.value.hash != x.sourceHash, CommitSourceMismatch, id, place)
            + When(!v.tree.clean(v.commit, x.relativePath), CheckoutStale, id, place)
            + (if v.tree.python(x.relativePath) then SymbolFindings(blob.value.parsed, x.symbol, id, place) else []))
  }

  function SymbolFindings(parsed: Parsed, symbol: string, id: string, place: string): seq<Finding>
  {
    match parsed
    case BadEncoding => When(true, EncodingError, id, place)
    case BadSyntax => When(true, SyntaxError, id, place)
    case Symbols(facts) => When(symbol !in facts, SymbolNotFound, id, place)
  }

  /** A binding is located when its symbol is found in a committed Python source. */
  function BindingLocations(v: View, id: string, x: Binding): seq<Location>
  {
    var blob := Committed(v, x.relativePath);
    if blob.Some? && v.tree.python(x.relativePath) && blob.value.parsed.Symbols? && x.symbol in blob.value.parsed.facts
    then
      var fact := blob.value.parsed.facts[x.symbol];
      [Location(id, v.commit, x.relativePath, v.tree.moduleName(x.relativePath), x.symbol, fact.kind, fact.startLine, fact.endLine,
                blob.value.hash, fact.hash)]
    else []
  }

  function TestFindings(v: View, id: string, path: string): seq<Finding>
  {
    var file := v.tree.file(path);
    When(!file.present, TestNotFound, id, path) + When(file.present && !file.regular, TestNotRegular, id, path)
  }

  /** `for x in xs: out.extend(f(x))`. */
  function Flat<A, B>(f: A -> seq<B>, xs: seq<A>): seq<B>
  {
    if xs == [] then [] else Flat(f, xs[..|xs| - 1]) + f(xs[|xs| - 1])
  }

  lemma {:induction false} FlatMembers<A(!new), B(!new)>(f: A -> seq<B>, xs: seq<A>)
    ensures forall y :: y in Flat(f, xs) <==> exists x :: x in xs && y in f(x)
    ensures Flat(f, xs) == [] <==> forall x :: x in xs ==> f(x) == []
  {
    if xs != [] {
      FlatMembers(f, xs[..|xs| - 1]);
      assert xs == xs[..|xs| - 1] + [xs[|xs| - 1]];
    }
  }

  lemma FlatSnoc<A, B>(f: A -> seq<B>, xs: seq<A>, i: nat)
    requires i < |xs|
    ensures Flat(f, xs[..i + 1]) == Flat(f, xs[..i]) + f(xs[i])
  {
    assert xs[..i + 1][..i] == xs[..i];
  }

  function FindingsAt(v: View, id: string): Binding -> seq<Finding>
  {
    (x: Binding) => BindingFindings(v, id, x)
  }

  function LocationsAt(v: View, id: string): Binding -> seq<Location>
  {
    (x: Binding) => BindingLocations(v, id, x)
  }

  function TestsAt(v: View, id: string): string -> seq<Finding>
  {
    (path: string) => TestFindings(v, id, path)
  }

  function BehaviorFindings(v: View): Behavior -> seq<Finding>
  {
    (b: Behavior) => Flat(FindingsAt(v, b.id), Sort(BindingLeq, b.bindings)) + Flat(TestsAt(v, b.id), Sort(StringLeq, ListOf(b, TESTS)))
  }

  function BehaviorLocations(v: View): Behavior -> seq<Location>
  {
    (b: Behavior) => Flat(LocationsAt(v, b.id), Sort(BindingLeq, b.bindings))
  }

  /** The first of every repeated finding. */
  function Deduplicated(findings: seq<Finding>): seq<Finding>
  {
    if findings == [] then []
    else
      var front, last := findings[..|findings| - 1], findings[|findings| - 1];
      Deduplicated(front) + (if last in front then [] else [last])
  }

  predicate PlaceLeq(a: Location, b: Location)
  {
    if a.behaviorId == b.behaviorId then PairLeq((a.relativePath, a.symbol), (b.relativePath, b.symbol))
    else StringLeq(a.behaviorId, b.behaviorId)
  }

  function Paths(behaviors: seq<Behavior>): set<string>
  {
    set p | p in DeclaredBindings(behaviors) :: p.0.relativePath
  }

  function HashOf(blob: Option<Blob>): Option<string>
  {
    if blob.Some? then Some(blob.value.hash) else None
  }

  datatype Inspection = Inspection(findings: seq<Finding>, locations: seq<Location>, actual: map<string, Option<string>>)

  function Inspected(tree: Tree, m: Manifest, commit: string): Inspection
  {
    var v, bs := ViewOf(tree, m, commit), Sort(BehaviorLeq, m.behaviors);
    Inspection(
      Deduplicated(CommitFindings(tree, m, commit) + Flat(BehaviorFindings(v), bs)),
      Sort(PlaceLeq, Flat(BehaviorLocations(v), bs)),
      map p | p in Paths(m.behaviors) :: HashOf(Committed(v, p)))
  }

  /** Every declared path stays inside the repository; otherwise the build raises. */
  ghost predicate Contained(tree: Tree, m: Manifest)
  {
    && (forall p :: p in DeclaredBindings(m.behaviors) ==> tree.file(p.0.relativePath).contained)
    && (forall p :: p in DeclaredValues(TESTS, m.behaviors) ==> tree.file(p.0).contained)
  }

  // ---- the inspection loop ----

  ghost predicate Caches(v: View, blobs: map<string, Option<Blob>>, paths: set<string>)
  {
    blobs.Keys == paths && forall p :: p in paths ==> blobs[p] == Committed(v, p)
  }

  function PathsIn(bindings: seq<Binding>): set<string>
  {
    set x | x in bindings :: x.relativePath
  }

  lemma PathsInSnoc(bindings: seq<Binding>, i: nat)
    requires i < |bindings|
    ensures PathsIn(bindings[..i + 1]) == PathsIn(bindings[..i]) + {bindings[i].relativePath}
  {
    assert bindings[..i + 1] == bindings[..i] + [bindings[i]];
  }

  /** The committed bytes of a path are read once. */
  method ReadBlob(v: View, blobs: map<string, Option<Blob>>, path: string, ghost paths: set<string>)
    returns (known: map<string, Option<Blob>>)
    requires Caches(v, blobs, paths)
    ensures Caches(v, known, paths + {path})
  {
    known := if path in blobs then blobs else blobs[path := Committed(v, path)];
  }

  /** The bindings of one entry, with the blobs read so far. */
  method InspectBindings(v: View, b: Behavior, blobs: map<string, Option<Blob>>, ghost paths: set<string>)
    returns (findings: seq<Finding>, locations: seq<Location>, read: Option<map<string, Option<Blob>>>)
    requires Caches(v, blobs, paths)
    ensures read.Some? <==> forall x :: x in b.bindings ==> v.tree.file(x.relativePath).contained
    ensures read.Some? ==> findings == Flat(FindingsAt(v, b.id), Sort(BindingLeq, b.bindings))
    ensures read.Some? ==> locations == Flat(LocationsAt(v, b.id), Sort(BindingLeq, b.bindings))
    ensures read.Some? ==> Caches(v, read.value, paths + PathsIn(b.bindings))
  {
    hide BindingFindings, BindingLocations, Sort, Flat, Caches, PathsIn;
    var sorted, known := Sort(BindingLeq, b.bindings), blobs;
    SortMembers(BindingLeq, b.bindings);
    findings, locations := [], [];
    FlatOfNothing(FindingsAt(v, b.id), sorted);
    FlatOfNothing(LocationsAt(v, b.id), sorted);
    NoPaths(sorted, paths);
    for i := 0 to |sorted|
      invariant forall j :: 0 <= j < i ==> v.tree.file(sorted[j].relativePath).contained
      invariant findings == Flat(FindingsAt(v, b.id), sorted[..i])
      invariant locations == Flat(LocationsAt(v, b.id), sorted[..i])
      invariant Caches(v, known, paths + PathsIn(sorted[..i]))
    {
      var x := sorted[i];
      assert x in b.bindings;
      if !v.tree.file(x.relativePath).contained {
        return findings, locations, None;
      }
      known := ReadBlob(v, known, x.relativePath, paths + PathsIn(sorted[..i]));
      PathsInSnoc(sorted, i);
      assert paths + PathsIn(sorted[..i]) + {x.relativePath} == paths + PathsIn(sorted[..i + 1]);
      FlatSnoc(FindingsAt(v, b.id), sorted, i);
      FlatSnoc(LocationsAt(v, b.id), sorted, i);
      findings := findings + BindingFindings(v, b.id, x);
      locations := locations + BindingLocations(v, b.id, x);
    }
    assert sorted[..|sorted|] == sorted;
    SamePathsIn(sorted, b.bindings);
    return findings, locations, Some(known);
  }

  lemma NoPaths(bindings: seq<Binding>, paths: set<string>)
    ensures paths + PathsIn(bindings[..0]) == paths
  {}

  lemma SamePathsIn(xs: seq<Binding>, ys: seq<Binding>)
    requires forall x :: x in xs <==> x in ys
    ensures PathsIn(xs) == PathsIn(ys)
  {}

  lemma FlatOfNothing<A, B>(f: A -> seq<B>, xs: seq<A>)
    ensures Flat(f, xs[..0]) == []
  {}

  lemma SortMembers<T(!new)>(leq: (T, T) -> bool, xs: seq<T>)
    ensures forall x :: x in Sort(leq, xs) <==> x in xs
  {
    SortKeeps(leq, xs);
    forall x ensures x in Sort(leq, xs) <==> x in xs
    {
      assert x in multiset(Sort(leq, xs)) <==> x in multiset(xs);
    }
  }

  lemma {:induction false} SortKeeps<T>(leq: (T, T) -> bool, xs: seq<T>)
    ensures multiset(Sort(leq, xs)) == multiset(xs)
  {
    if xs != [] {
      SortKeeps(leq, xs[1..]);
      InsertKeeps(leq, xs[0], Sort(leq, xs[1..]));
      assert xs == [xs[0]] + xs[1..];
    }
  }

  method InspectTests(v: View, b: Behavior) returns (findings: Option<seq<Finding>>)
    ensures findings.Some? <==> forall p :: p in ListOf(b, TESTS) ==> v.tree.file(p).contained
    ensures findings.Some? ==> findings.value == Flat(TestsAt(v, b.id), Sort(StringLeq, ListOf(b, TESTS)))
  {
    var sorted := Sort(StringLeq, ListOf(b, TESTS));
    SortMembers(StringLeq, ListOf(b, TESTS));
    var found: seq<Finding> := [];
    for i := 0 to |sorted|
      invariant forall j :: 0 <= j < i ==> v.tree.file(sorted[j]).contained
      invariant found == Flat(TestsAt(v, b.id), sorted[..i])
    {
      assert sorted[i] in ListOf(b, TESTS);
      if !v.tree.file(sorted[i]).contained {
        return None;
      }
      FlatSnoc(TestsAt(v, b.id), sorted, i);
      found := found + TestFindings(v, b.id, sorted[i]);
    }
    assert sorted[..|sorted|] == sorted;
    return Some(found);
  }

  method Deduplicate(findings: seq<Finding>) returns (retained: seq<Finding>)
    ensures retained == Deduplicated(findings)
  {
    retained := [];
    var seen: set<Finding> := {};
    for i := 0 to |findings|
      invariant retained == Deduplicated(findings[..i])
      invariant forall f :: f in seen <==> f in findings[..i]
    {
      assert findings[..i + 1][..i] == findings[..i];
      if findings[i] !in seen {
        seen := seen + {findings[i]};
        retained := retained + [findings[i]];
      }
    }
    assert findings[..|findings|] == findings;
  }

  ghost predicate ContainedEntry(tree: Tree, b: Behavior)
  {
    && (forall x :: x in b.bindings ==> tree.file(x.relativePath).contained)
    && (forall p :: p in ListOf(b, TESTS) ==> tree.file(p).contained)
  }

  lemma ContainedEntries(tree: Tree, m: Manifest)
    ensures Contained(tree, m) <==> forall b :: b in m.behaviors ==> ContainedEntry(tree, b)
  {
    if Contained(tree, m) {
      forall b | b in m.behaviors
        ensures ContainedEntry(tree, b)
      {
        assert forall x :: x in b.bindings ==> (x, b.id) in DeclaredBindings(m.behaviors);
        assert forall p :: p in ListOf(b, TESTS) ==> (p, b.id) in DeclaredValues(TESTS, m.behaviors);
      }
    }
  }

  /** One round of the loop over entries. */
  method InspectEntry(v: View, b: Behavior, blobs: map<string, Option<Blob>>, ghost paths: set<string>)
    returns (findings: seq<Finding>, locations: seq<Location>, read: Option<map<string, Option<Blob>>>)
    requires Caches(v, blobs, paths)
    ensures read.Some? <==> ContainedEntry(v.tree, b)
    ensures read.Some? ==> findings == BehaviorFindings(v)(b) && locations == BehaviorLocations(v)(b)
    ensures read.Some? ==> Caches(v, read.value, paths + PathsIn(b.bindings))
  {
    hide Sort, Flat, Caches, PathsIn;
    findings, locations, read := InspectBindings(v, b, blobs, paths);
    var tests := InspectTests(v, b);
    if tests.None? {
      read := None;
    } else {
      findings := findings + tests.value;
    }
  }

  /** `_inspect_manifest`: raises exactly when a declared path escapes the repository. */
  method Inspect(tree: Tree, m: Manifest, commit: string) returns (r: Result<Inspection>)
    ensures r.Ok? <==> Contained(tree, m)
    ensures r.Ok? ==> r.value == Inspected(tree, m, commit)
  {
    hide Sort, Flat, Deduplicated, CommitFindings, Committed, Caches, Paths, PathsIn, Contained, ContainedEntry, BehaviorFindings, BehaviorLocations;
    var v, bs := ViewOf(tree, m, commit), Sort(BehaviorLeq, m.behaviors);
    SortMembers(BehaviorLeq, m.behaviors);
    ContainedEntries(tree, m);
    var start := CommitFindings(tree, m, commit);
    var findings, locations, blobs := [], [], map[];
    FlatOfNothing(BehaviorFindings(v), bs);
    FlatOfNothing(BehaviorLocations(v), bs);
    NothingRead(v, bs);
    for i := 0 to |bs|
      invariant forall j :: 0 <= j < i ==> ContainedEntry(tree, bs[j])
      invariant findings == Flat(BehaviorFindings(v), bs[..i])
      invariant locations == Flat(BehaviorLocations(v), bs[..i])
      invariant Caches(v, blobs, Paths(bs[..i]))
    {
      assert bs[i] in m.behaviors;
      var some, places, read := InspectEntry(v, bs[i], blobs, Paths(bs[..i]));
      if read.None? {
        return Raised;
      }
      FlatSnoc(BehaviorFindings(v), bs, i);
      FlatSnoc(BehaviorLocations(v), bs, i);
      PathsSnoc(bs, i);
      findings, locations, blobs := findings + some, locations + places, read.value;
    }
    assert bs[..|bs|] == bs;
    SamePaths(bs, m.behaviors);
    var retained := Deduplicate(start + findings);
    var actual := ListHashes(v, blobs, Paths(bs));
    return Ok(Inspection(retained, Sort(PlaceLeq, locations), actual));
  }

  method ListHashes(v: View, blobs: map<string, Option<Blob>>, ghost paths: set<string>) returns (actual: map<string, Option<string>>)
    requires Caches(v, blobs, paths)
    ensures actual == map p | p in paths :: HashOf(Committed(v, p))
  {
    actual := map p | p in blobs :: HashOf(blobs[p]);
  }

  lemma NothingRead(v: View, bs: seq<Behavior>)
    ensures Caches(v, map[], Paths(bs[..0]))
  {}

  lemma SamePaths(xs: seq<Behavior>, ys: seq<Behavior>)
    requires forall b :: b in xs <==> b in ys
    ensures Paths(xs) == Paths(ys)
  {
    assert DeclaredBindings(xs) == DeclaredBindings(ys);
  }

  lemma PathsSnoc(bs: seq<Behavior>, i: nat)
    requires i < |bs|
    ensures Paths(bs[..i + 1]) == Paths(bs[..i]) + PathsIn(bs[i].bindings)
  {
    assert bs[..i + 1] == bs[..i] + [bs[i]];
    assert DeclaredBindings(bs[..i + 1]) == DeclaredBindings(bs[..i]) + set x | x in bs[i].bindings :: (x, bs[i].id);
    forall p | p in PathsIn(bs[i].bindings)
      ensures p in Paths(bs[..i + 1])
    {
      var x :| x in bs[i].bindings && x.relativePath == p;
      assert (x, bs[i].id) in DeclaredBindings(bs[..i + 1]);
    }
  }

  // ---- what passing means ----

  predicate BindingVerified(v: View, x: Binding)
  {
    var file, blob := v.tree.file(x.relativePath), Committed(v, x.relativePath);
    && file.present && file.regular && v.tree.python(x.relativePath)
    && blob.Some? && blob.value.hash == x.sourceHash && v.tree.clean(v.commit, x.relativePath)
    && blob.value.parsed.Symbols? && x.symbol in blob.value.parsed.facts
  }

  /** Every declaration was found as declared at the manifest's commit. */
  ghost predicate Verified(tree: Tree, m: Manifest, commit: string)
  {
    var v := ViewOf(tree, m, commit);
    && v.verified
    && (forall p :: p in DeclaredBindings(m.behaviors) ==> BindingVerified(v, p.0))
    && (forall p :: p in DeclaredValues(TESTS, m.behaviors) ==> tree.file(p.0).present && tree.file(p.0).regular)
  }

  lemma BindingPasses(v: View, id: string, x: Binding)
    requires v.verified
    ensures BindingFindings(v, id, x) == [] <==> BindingVerified(v, x)
  {}

  lemma {:induction false} DeduplicatedEmpty(findings: seq<Finding>)
    ensures Deduplicated(findings) == [] <==> findings == []
    ensures forall f :: f in Deduplicated(findings) <==> f in findings
    ensures Distinct(Deduplicated(findings))
  {
    if findings != [] {
      DeduplicatedEmpty(findings[..|findings| - 1]);
      assert findings == findings[..|findings| - 1] + [findings[|findings| - 1]];
    }
  }

  ghost predicate EntryVerified(v: View, b: Behavior)
  {
    && (forall x :: x in b.bindings ==> BindingVerified(v, x))
    && (forall p :: p in ListOf(b, TESTS) ==> v.tree.file(p).present && v.tree.file(p).regular)
  }

  lemma EntryPasses(v: View, b: Behavior)
    requires v.verified
    ensures BehaviorFindings(v)(b) == [] <==> EntryVerified(v, b)
  {
    hide BindingFindings, BindingVerified, Flat, Sort;
    SortMembers(BindingLeq, b.bindings);
    SortMembers(StringLeq, ListOf(b, TESTS));
    FlatMembers(FindingsAt(v, b.id), Sort(BindingLeq, b.bindings));
    FlatMembers(TestsAt(v, b.id), Sort(StringLeq, ListOf(b, TESTS)));
    forall x ensures FindingsAt(v, b.id)(x) == [] <==> BindingVerified(v, x)
    {
      BindingPasses(v, b.id, x);
    }
  }

  lemma VerifiedEntries(tree: Tree, m: Manifest, commit: string)
    ensures
      var v := ViewOf(tree, m, commit);
      Verified(tree, m, commit) <==> v.verified && forall b :: b in m.behaviors ==> EntryVerified(v, b)
  {
    hide BindingVerified;
    if Verified(tree, m, commit) {
      forall b | b in m.behaviors
        ensures EntryVerified(ViewOf(tree, m, commit), b)
      {
        assert forall x :: x in b.bindings ==> (x, b.id) in DeclaredBindings(m.behaviors);
        assert forall p :: p in ListOf(b, TESTS) ==> (p, b.id) in DeclaredValues(TESTS, m.behaviors);
      }
    }
  }

  /** An inspection has no finding exactly when every declaration holds of the repository. */
  lemma InspectionPassesExactly(tree: Tree, m: Manifest, commit: string)
    ensures Inspected(tree, m, commit).findings == [] <==> Verified(tree, m, commit)
  {
    hide BindingFindings, EntryVerified, Flat, Sort, Deduplicated, Verified;
    var v, bs := ViewOf(tree, m, commit), Sort(BehaviorLeq, m.behaviors);
    SortMembers(BehaviorLeq, m.behaviors);
    FlatMembers(BehaviorFindings(v), bs);
    DeduplicatedEmpty(CommitFindings(tree, m, commit) + Flat(BehaviorFindings(v), bs));
    VerifiedEntries(tree, m, commit);
    if v.verified {
      forall b ensures BehaviorFindings(v)(b) == [] <==> EntryVerified(v, b)
      {
        EntryPasses(v, b);
      }
    }
  }

  // ---- the rendered document ----

  /** An entry as rendered: sorted list fields, and locations sorted by path and symbol. */
  datatype Rendered = Rendered(id: string, summary: string, lists: map<string, seq<string>>, locations: seq<Location>)

  /** The JSON document; the disclosure levels are selections of the rendered entries. */
  datatype Document = Document(
    repository: string, commit: string, manifestHash: string, treeHash: string, behaviors: seq<Rendered>,
    sourceLinks: seq<Link<(string, string)>>, ruleLinks: seq<Link<string>>)

  datatype Hashes = Hashes(manifest: Manifest -> string, tree: seq<(string, Option<string>)> -> string)

  predicate LocationLeq(a: Location, b: Location)
  {
    PairLeq((a.relativePath, a.symbol), (b.relativePath, b.symbol))
  }

  function OfBehavior(id: string): Location -> bool
  {
    (l: Location) => l.behaviorId == id
  }

  function RenderBehavior(locations: seq<Location>, b: Behavior): Rendered
  {
    Rendered(b.id, b.summary, map f | f in b.lists :: Sort(StringLeq, b.lists[f]),
             Sort(LocationLeq, Filter(OfBehavior(b.id), locations)))
  }

  function RenderAll(locations: seq<Location>, bs: seq<Behavior>): seq<Rendered>
  {
    seq(|bs|, i requires 0 <= i < |bs| => RenderBehavior(locations, bs[i]))
  }

  function SourcesOf(locations: seq<Location>): set<((string, string), string)>
  {
    set l | l in locations :: ((l.relativePath, l.symbol), l.behaviorId)
  }

  /** `sorted(actual.items())`. */
  ghost predicate Lists(listing: seq<(string, Option<string>)>, actual: map<string, Option<string>>)
  {
    && (forall i, j :: 0 <= i < j < |listing| ==> StringLeq(listing[i].0, listing[j].0) && listing[i].0 != listing[j].0)
    && (forall i :: 0 <= i < |listing| ==> listing[i].0 in actual && actual[listing[i].0] == listing[i].1)
    && (forall p :: p in actual ==> (p, actual[p]) in listing)
  }

  ghost predicate IsTreeHash(hash: string, tree: seq<(string, Option<string>)> -> string, actual: map<string, Option<string>>)
  {
    exists listing :: Lists(listing, actual) && hash == tree(listing)
  }

  ghost predicate IsDocument(hashes: Hashes, m: Manifest, i: Inspection, d: Document)
  {
    && d.repository == m.repository && d.commit == m.commit
    && d.manifestHash == hashes.manifest(Canonical(m))
    && IsTreeHash(d.treeHash, hashes.tree, i.actual)
    && d.behaviors == RenderAll(i.locations, Sort(BehaviorLeq, m.behaviors))
    && IsInverse(PairLeq, d.sourceLinks, SourcesOf(i.locations))
    && IsInverse(StringLeq, d.ruleLinks, DeclaredValues(RULES, m.behaviors))
  }

  datatype Build = Built(document: Document) | Failed(codes: seq<Code>) | Escapes

  function Codes(findings: seq<Finding>): seq<Code>
  {
    seq(|findings|, i requires 0 <= i < |findings| => findings[i].code)
  }

  ghost predicate IsBuild(tree: Tree, hashes: Hashes, m: Manifest, commit: string, r: Build)
  {
    var i := Inspected(tree, m, commit);
    if !Contained(tree, m) then r == Escapes
    else if i.findings != [] then r == Failed(Codes(i.findings))
    else r.Built? && IsDocument(hashes, m, i, r.document)
  }

  method SourceLinks(locations: seq<Location>) returns (links: seq<Link<(string, string)>>)
    ensures IsInverse(PairLeq, links, SourcesOf(locations))
  {
    hide Collects, Collected, IsInverse;
    var table: map<(string, string), set<string>> := map[];
    NothingCollected(table, SourcesOf(locations[..0]));
    for i := 0 to |locations|
      invariant Collects(table, SourcesOf(locations[..i]))
    {
      var l := locations[i];
      var key := (l.relativePath, l.symbol);
      assert locations[..i + 1] == locations[..i] + [l];
      assert SourcesOf(locations[..i + 1]) == SourcesOf(locations[..i]) + {(key, l.behaviorId)};
      CollectsMore(table, SourcesOf(locations[..i]), key, l.behaviorId);
      table := Collected(table, key, l.behaviorId);
    }
    assert locations[..|locations|] == locations;
    PairsAreOrdered();
    links := ListLinks(PairLeq, table, SourcesOf(locations));
  }

  lemma NothingCollected<K(!new)>(table: map<K, set<string>>, declared: set<(K, string)>)
    requires table == map[] && declared == {}
    ensures Collects(table, declared)
  {}

  method ListSources(actual: map<string, Option<string>>) returns (listing: seq<(string, Option<string>)>)
    ensures Lists(listing, actual)
  {
    StringsAreOrdered();
    var paths := SortedSet(StringLeq, actual.Keys);
    listing := seq(|paths|, i requires 0 <= i < |paths| && paths[i] in actual => (paths[i], actual[paths[i]]));
    forall p | p in actual
      ensures (p, actual[p]) in listing
    {
      assert p in paths;
      var i :| 0 <= i < |paths| && paths[i] == p;
      assert listing[i] == (p, actual[p]);
    }
  }

  /** `build_handbook` up to the serialisation of the document. */
  method BuildHandbook(tree: Tree, hashes: Hashes, m: Manifest, commit: string) returns (r: Build)
    ensures IsBuild(tree, hashes, m, commit, r)
  {
    hide Inspected, IsInverse, Lists, Canonical, Contained;
    var inspected := Inspect(tree, m, commit);
    if inspected.Raised? {
      return Escapes;
    }
    var i := inspected.value;
    if i.findings != [] {
      return Failed(Codes(i.findings));
    }
    var sources := SourceLinks(i.locations);
    var rules := RuleLinks(m);
    var listing := ListSources(i.actual);
    r := Built(Document(m.repository, m.commit, hashes.manifest(Canonical(m)), hashes.tree(listing),
                        RenderAll(i.locations, Sort(BehaviorLeq, m.behaviors)), sources, rules));
  }

  // ---- order carries no meaning ----

  /** What a function sees of an entry does not depend on the order of its lists. */
  ghost predicate SeesNormalForm<B>(f: Behavior -> B)
  {
    forall b :: f(NormalizedBehavior(b)) == f(b)
  }

  lemma {:induction false} FlatSeesNormalForms<B>(f: Behavior -> seq<B>, bs: seq<Behavior>)
    requires SeesNormalForm(f)
    ensures Flat(f, NormalizedAll(bs)) == Flat(f, bs)
  {
    if bs != [] {
      FlatSeesNormalForms(f, bs[..|bs| - 1]);
      assert NormalizedAll(bs)[..|bs| - 1] == NormalizedAll(bs[..|bs| - 1]);
    }
  }

  lemma InspectionSeesNormalForm(v: View)
    ensures SeesNormalForm(BehaviorFindings(v)) && SeesNormalForm(BehaviorLocations(v))
  {
    hide Sort, Flat;
    DeclarationsAreOrdered();
    forall b
      ensures BehaviorFindings(v)(NormalizedBehavior(b)) == BehaviorFindings(v)(b)
      ensures BehaviorLocations(v)(NormalizedBehavior(b)) == BehaviorLocations(v)(b)
    {
      SortIdempotent(BindingLeq, b.bindings);
      SortIdempotent(StringLeq, ListOf(b, TESTS));
      SortOfNothing();
      assert ListOf(NormalizedBehavior(b), TESTS) == Sort(StringLeq, ListOf(b, TESTS));
    }
  }

  lemma SortOfNothing()
    ensures Sort(StringLeq, []) == []
  {}

  /** Rearranged manifests get the same findings in the same order, the same locations and the same
      source hashes. */
  lemma InspectionForgetsOrder(tree: Tree, m1: Manifest, m2: Manifest, commit: string)
    requires Coherent(m1) && Coherent(m2) && Rearranged(m1, m2)
    ensures Inspected(tree, m1, commit) == Inspected(tree, m2, commit)
    ensures Contained(tree, m1) <==> Contained(tree, m2)
  {
    hide Coherent, Sort, Flat, Covers, Canonical, Deduplicated, CommitFindings;
    var v := ViewOf(tree, m1, commit);
    CanonicalExactly(m1, m2);
    CanonicalEntries(m1);
    CanonicalEntries(m2);
    InspectionSeesNormalForm(v);
    FlatSeesNormalForms(BehaviorFindings(v), Sort(BehaviorLeq, m1.behaviors));
    FlatSeesNormalForms(BehaviorFindings(v), Sort(BehaviorLeq, m2.behaviors));
    FlatSeesNormalForms(BehaviorLocations(v), Sort(BehaviorLeq, m1.behaviors));
    FlatSeesNormalForms(BehaviorLocations(v), Sort(BehaviorLeq, m2.behaviors));
    RearrangedDeclaresSameSources(m1, m2);
    RearrangedDeclaresSameRules(m1, m2, TESTS);
    SameCommitFindings(tree, m1, m2, commit);
  }

  lemma SameCommitFindings(tree: Tree, m1: Manifest, m2: Manifest, commit: string)
    requires m1.commit == m2.commit
    ensures CommitFindings(tree, m1, commit) == CommitFindings(tree, m2, commit)
  {}

  /** Rendering an entry sees only its normal form. */
  lemma RenderSeesNormalForm(locations: seq<Location>, b: Behavior)
    ensures RenderBehavior(locations, NormalizedBehavior(b)) == RenderBehavior(locations, b)
  {
    hide Sort, Filter;
    DeclarationsAreOrdered();
    var n := NormalizedBehavior(b);
    forall f | f in b.lists
      ensures Sort(StringLeq, n.lists[f]) == Sort(StringLeq, b.lists[f])
    {
      SortIdempotent(StringLeq, b.lists[f]);
    }
    assert RenderBehavior(locations, n).lists == RenderBehavior(locations, b).lists;
  }

  lemma SameNormalFormsRenderAlike(locations: seq<Location>, xs: seq<Behavior>, ys: seq<Behavior>)
    requires NormalizedAll(xs) == NormalizedAll(ys)
    ensures RenderAll(locations, xs) == RenderAll(locations, ys)
  {
    hide NormalizedBehavior, RenderBehavior;
    assert |NormalizedAll(xs)| == |xs| && |NormalizedAll(ys)| == |ys|;
    forall i | 0 <= i < |xs|
      ensures RenderBehavior(locations, xs[i]) == RenderBehavior(locations, ys[i])
    {
      assert NormalizedAll(xs)[i] == NormalizedAll(ys)[i];
      RenderSeesNormalForm(locations, xs[i]);
      RenderSeesNormalForm(locations, ys[i]);
    }
  }

  predicate ItemLeq(a: (string, Option<string>), b: (string, Option<string>))
  {
    StringLeq(a.0, b.0)
  }

  /** A mapping has one sorted listing, so the source-tree hash is a function of it. */
  lemma ListingIsUnique(a: seq<(string, Option<string>)>, b: seq<(string, Option<string>)>, actual: map<string, Option<string>>)
    requires Lists(a, actual) && Lists(b, actual)
    ensures a == b
  {
    StringsAreOrdered();
    assert Ascends(ItemLeq, a) && Distinct(a) && Ascends(ItemLeq, b) && Distinct(b);
    forall x ensures x in a <==> x in b
    {
      assert x in a ==> x == (x.0, actual[x.0]);
      assert x in b ==> x == (x.0, actual[x.0]);
    }
    AscendingSetUnique(ItemLeq, a, b);
  }

  lemma TreeHashIsUnique(a: string, b: string, tree: seq<(string, Option<string>)> -> string, actual: map<string, Option<string>>)
    requires IsTreeHash(a, tree, actual) && IsTreeHash(b, tree, actual)
    ensures a == b
  {
    hide Lists;
    var x :| Lists(x, actual) && a == tree(x);
    var y :| Lists(y, actual) && b == tree(y);
    ListingIsUnique(x, y, actual);
  }

  lemma DocumentsAgree(hashes: Hashes, m1: Manifest, m2: Manifest, i: Inspection, d1: Document, d2: Document)
    requires Coherent(m1) && Coherent(m2) && Rearranged(m1, m2)
    requires IsDocument(hashes, m1, i, d1) && IsDocument(hashes, m2, i, d2)
    ensures d1 == d2
  {
    hide Coherent, Covers, Canonical, IsTreeHash, IsInverse, Sort, RenderAll, SourcesOf;
    CanonicalExactly(m1, m2);
    CanonicalEntries(m1);
    CanonicalEntries(m2);
    SameNormalFormsRenderAlike(i.locations, Sort(BehaviorLeq, m1.behaviors), Sort(BehaviorLeq, m2.behaviors));
    TreeHashIsUnique(d1.treeHash, d2.treeHash, hashes.tree, i.actual);
    RearrangedDeclaresSameRules(m1, m2, RULES);
    StringsAreOrdered();
    PairsAreOrdered();
    InverseIsUnique(PairLeq, d1.sourceLinks, d2.sourceLinks, SourcesOf(i.locations));
    InverseIsUnique(StringLeq, d1.ruleLinks, d2.ruleLinks, DeclaredValues(RULES, m1.behaviors));
  }

  /** Rearranging a manifest changes nothing in a build, whatever the repository and the hash
      functions: the same error or the same findings, or the same document with both hashes, every
      entry and both link tables. */
  lemma RenderingForgetsOrder(tree: Tree, hashes: Hashes, m1: Manifest, m2: Manifest, commit: string, r1: Build, r2: Build)
    requires Coherent(m1) && Coherent(m2) && Rearranged(m1, m2)
    requires IsBuild(tree, hashes, m1, commit, r1) && IsBuild(tree, hashes, m2, commit, r2)
    ensures r1 == r2
  {
    hide Coherent, Rearranged, IsDocument, Inspected, Contained;
    InspectionForgetsOrder(tree, m1, m2, commit);
    if r1.Built? {
      DocumentsAgree(hashes, m1, m2, Inspected(tree, m1, commit), r1.document, r2.document);
    }
  }

  // ---- what a built document says ----

  /** The location of a binding that was found. */
  predicate Locates(v: View, id: string, x: Binding, l: Location)
  {
    && l.behaviorId == id && l.relativePath == x.relativePath && l.symbol == x.symbol && l.sourceHash == x.sourceHash
    && l.commit == v.commit && l.moduleName == v.tree.moduleName(x.relativePath)
    && Committed(v, x.relativePath).Some? && Committed(v, x.relativePath).value.parsed.Symbols?
    && x.symbol in Committed(v, x.relativePath).value.parsed.facts
    && Fact(l.kind, l.startLine, l.endLine, l.symbolHash) == Committed(v, x.relativePath).value.parsed.facts[x.symbol]
  }

  lemma VerifiedIsLocated(v: View, id: string, x: Binding)
    requires BindingVerified(v, x)
    ensures forall l :: l in BindingLocations(v, id, x) <==> Locates(v, id, x, l)
  {}

  /** A passing inspection locates exactly the declared bindings, each with its declared hash. */
  lemma PassingLocatesExactly(tree: Tree, m: Manifest, commit: string, l: Location)
    requires Verified(tree, m, commit)
    ensures l in Inspected(tree, m, commit).locations
      <==> exists p :: p in DeclaredBindings(m.behaviors) && Locates(ViewOf(tree, m, commit), p.1, p.0, l)
  {
    hide BindingVerified, BindingLocations, Locates, Sort, Flat;
    var v, bs := ViewOf(tree, m, commit), Sort(BehaviorLeq, m.behaviors);
    SortMembers(PlaceLeq, Flat(BehaviorLocations(v), bs));
    SortMembers(BehaviorLeq, m.behaviors);
    FlatMembers(BehaviorLocations(v), bs);
    forall b | b in m.behaviors
      ensures l in BehaviorLocations(v)(b) <==> exists x :: x in b.bindings && Locates(v, b.id, x, l)
    {
      EntryLocations(v, b, l, m.behaviors);
    }
    if p :| p in DeclaredBindings(m.behaviors) && Locates(v, p.1, p.0, l) {
      var b :| b in m.behaviors && b.id == p.1 && p.0 in b.bindings;
      assert l in BehaviorLocations(v)(b);
    }
    if l in Inspected(tree, m, commit).locations {
      var b :| b in bs && l in BehaviorLocations(v)(b);
      var x :| x in b.bindings && Locates(v, b.id, x, l);
      assert (x, b.id) in DeclaredBindings(m.behaviors);
    }
  }

  lemma EntryLocations(v: View, b: Behavior, l: Location, behaviors: seq<Behavior>)
    requires b in behaviors && forall p :: p in DeclaredBindings(behaviors) ==> BindingVerified(v, p.0)
    ensures l in BehaviorLocations(v)(b) <==> exists x :: x in b.bindings && Locates(v, b.id, x, l)
  {
    hide BindingVerified, BindingLocations, Locates, Sort, Flat;
    SortMembers(BindingLeq, b.bindings);
    FlatMembers(LocationsAt(v, b.id), Sort(BindingLeq, b.bindings));
    forall x | x in b.bindings
      ensures l in LocationsAt(v, b.id)(x) <==> Locates(v, b.id, x, l)
    {
      assert (x, b.id) in DeclaredBindings(behaviors);
      VerifiedIsLocated(v, b.id, x);
    }
  }

  /** The declared relation between source symbols and behaviours. */
  function DeclaredSources(m: Manifest): set<((string, string), string)>
  {
    set p | p in DeclaredBindings(m.behaviors) :: ((p.0.relativePath, p.0.symbol), p.1)
  }

  /** A build succeeds exactly when no path escapes and every declaration holds of the repository;
      then the source links are the inverse of what the manifest declares, binding by binding. */
  lemma BuildSucceedsExactly(tree: Tree, hashes: Hashes, m: Manifest, commit: string, r: Build)
    requires IsBuild(tree, hashes, m, commit, r)
    ensures r.Built? <==> Contained(tree, m) && Verified(tree, m, commit)
    ensures r.Built? ==> IsInverse(PairLeq, r.document.sourceLinks, DeclaredSources(m))
  {
    hide Contained, Verified, Inspected, IsInverse;
    InspectionPassesExactly(tree, m, commit);
    if r.Built? {
      PassingSources(tree, m, commit);
    }
  }

  lemma PassingSources(tree: Tree, m: Manifest, commit: string)
    requires Verified(tree, m, commit)
    ensures SourcesOf(Inspected(tree, m, commit).locations) == DeclaredSources(m)
  {
    hide Inspected;
    var v, locations := ViewOf(tree, m, commit), Inspected(tree, m, commit).locations;
    forall s | s in SourcesOf(locations)
      ensures s in DeclaredSources(m)
    {
      var l :| l in locations && s == ((l.relativePath, l.symbol), l.behaviorId);
      PassingLocatesExactly(tree, m, commit, l);
    }
    forall s | s in DeclaredSources(m)
      ensures s in SourcesOf(locations)
    {
      var p :| p in DeclaredBindings(m.behaviors) && s == ((p.0.relativePath, p.0.symbol), p.1);
      assert BindingVerified(v, p.0);
      var l := BindingLocations(v, p.1, p.0)[0];
      assert Locates(v, p.1, p.0, l);
      PassingLocatesExactly(tree, m, commit, l);
    }
  }

  // ---- what the entries say ----

  /** An entry has the declared summary, the declared values of each list field in ascending order,
      and exactly the locations of the behaviour's own bindings, by path and symbol. */
  ghost predicate EntrySays(v: View, b: Behavior, e: Rendered)
  {
    && e.id == b.id && e.summary == b.summary && e.lists.Keys == b.lists.Keys
    && (forall f :: f in b.lists ==> Ascends(StringLeq, e.lists[f]) && multiset(e.lists[f]) == multiset(b.lists[f]))
    && (forall l :: l in e.locations <==> exists x :: x in b.bindings && Locates(v, b.id, x, l))
    && PlacesAscend(e.locations)
  }

  ghost predicate PlacesAscend(locations: seq<Location>)
  {
    forall i, j :: 0 <= i < j < |locations| ==>
      && PairLeq((locations[i].relativePath, locations[i].symbol), (locations[j].relativePath, locations[j].symbol))
      && (locations[i].relativePath, locations[i].symbol) != (locations[j].relativePath, locations[j].symbol)
  }

  lemma {:induction false} FlatDistinct<A(!new), B(!new)>(f: A -> seq<B>, xs: seq<A>)
    requires forall i :: 0 <= i < |xs| ==> Distinct(f(xs[i]))
    requires forall i, j, y :: 0 <= i < j < |xs| && y in f(xs[i]) ==> y !in f(xs[j])
    ensures Distinct(Flat(f, xs))
  {
    if xs != [] {
      var n := |xs| - 1;
      FlatDistinct(f, xs[..n]);
      FlatMembers(f, xs[..n]);
      DistinctJoin(Flat(f, xs[..n]), f(xs[n]));
    }
  }

  lemma DistinctJoin<T>(xs: seq<T>, ys: seq<T>)
    requires Distinct(xs) && Distinct(ys) && forall y :: y in xs ==> y !in ys
    ensures Distinct(xs + ys)
  {
    forall i, j | 0 <= i < j < |xs + ys|
      ensures (xs + ys)[i] != (xs + ys)[j]
    {
      if i < |xs| <= j {
        assert xs[i] in xs && ys[j - |xs|] in ys;
      }
    }
  }

  lemma EntryLocationsDistinct(v: View, b: Behavior)
    requires UniqueBindings(b)
    ensures Distinct(BehaviorLocations(v)(b))
  {
    hide Sort, Flat, Committed;
    var sorted := Sort(BindingLeq, b.bindings);
    SortKeeps(BindingLeq, b.bindings);
    BindingsDiffer(b);
    DistinctRearranged(b.bindings, sorted);
    SortMembers(BindingLeq, b.bindings);
    forall i, j, l | 0 <= i < j < |sorted| && l in LocationsAt(v, b.id)(sorted[i])
      ensures l !in LocationsAt(v, b.id)(sorted[j])
    {
      assert sorted[i] in b.bindings && sorted[j] in b.bindings;
    }
    FlatDistinct(LocationsAt(v, b.id), sorted);
  }

  lemma BindingsDiffer(b: Behavior)
    requires UniqueBindings(b)
    ensures Distinct(b.bindings)
    ensures forall x, y :: x in b.bindings && y in b.bindings && x != y ==> (x.relativePath, x.symbol) != (y.relativePath, y.symbol)
  {}

  lemma BehaviorsDiffer(m: Manifest)
    requires Coherent(m)
    ensures Distinct(m.behaviors) && forall a, b :: a in m.behaviors && b in m.behaviors && a != b ==> a.id != b.id
    ensures forall b :: b in m.behaviors ==> UniqueBindings(b)
  {}

  lemma LocationsNameBehavior(v: View, b: Behavior)
    ensures forall l :: l in BehaviorLocations(v)(b) ==> l.behaviorId == b.id
  {
    hide Sort, Flat, Committed;
    FlatMembers(LocationsAt(v, b.id), Sort(BindingLeq, b.bindings));
  }

  lemma InspectedDistinct(tree: Tree, m: Manifest, commit: string)
    requires Coherent(m)
    ensures Distinct(Inspected(tree, m, commit).locations)
  {
    hide Sort, Flat, BehaviorLocations, Coherent, UniqueBindings;
    var v, sorted := ViewOf(tree, m, commit), Sort(BehaviorLeq, m.behaviors);
    BehaviorsDiffer(m);
    SortKeeps(BehaviorLeq, m.behaviors);
    SortMembers(BehaviorLeq, m.behaviors);
    DistinctRearranged(m.behaviors, sorted);
    forall i | 0 <= i < |sorted|
      ensures Distinct(BehaviorLocations(v)(sorted[i])) && forall l :: l in BehaviorLocations(v)(sorted[i]) ==> l.behaviorId == sorted[i].id
    {
      assert sorted[i] in m.behaviors;
      EntryLocationsDistinct(v, sorted[i]);
      LocationsNameBehavior(v, sorted[i]);
    }
    forall i, j, l | 0 <= i < j < |sorted| && l in BehaviorLocations(v)(sorted[i])
      ensures l !in BehaviorLocations(v)(sorted[j])
    {
      assert sorted[i] in m.behaviors && sorted[j] in m.behaviors;
    }
    FlatDistinct(BehaviorLocations(v), sorted);
    SortKeeps(PlaceLeq, Flat(BehaviorLocations(v), sorted));
    DistinctRearranged(Flat(BehaviorLocations(v), sorted), Inspected(tree, m, commit).locations);
  }

  lemma LocatesOne(v: View, id: string, x: Binding, y: Binding, k: Location, l: Location)
    requires Locates(v, id, x, k) && Locates(v, id, y, l) && (k.relativePath, k.symbol) == (l.relativePath, l.symbol)
    requires x == y
    ensures k == l
  {}

  /** The locations shown with one behaviour, before they are sorted. */
  lemma OwnLocations(tree: Tree, m: Manifest, commit: string, b: Behavior)
    requires Coherent(m) && Verified(tree, m, commit) && b in m.behaviors
    ensures
      var v, own := ViewOf(tree, m, commit), Filter(OfBehavior(b.id), Inspected(tree, m, commit).locations);
      Distinct(own) && forall l :: l in own <==> exists x :: x in b.bindings && Locates(v, b.id, x, l)
  {
    hide Inspected, Coherent, Verified, Filter;
    var v, locations := ViewOf(tree, m, commit), Inspected(tree, m, commit).locations;
    InspectedDistinct(tree, m, commit);
    FilterDistinct(OfBehavior(b.id), locations);
    FilterMembers(OfBehavior(b.id), locations);
    BehaviorsDiffer(m);
    forall l
      ensures l in locations && l.behaviorId == b.id <==> exists x :: x in b.bindings && Locates(v, b.id, x, l)
    {
      PassingLocatesExactly(tree, m, commit, l);
      if l in locations && l.behaviorId == b.id {
        var p :| p in DeclaredBindings(m.behaviors) && Locates(v, p.1, p.0, l);
        var c :| c in m.behaviors && c.id == p.1 && p.0 in c.bindings;
        assert c == b;
      }
      if x :| x in b.bindings && Locates(v, b.id, x, l) {
        assert (x, b.id) in DeclaredBindings(m.behaviors);
        assert (x, b.id).0 == x && (x, b.id).1 == b.id;
      }
    }
  }

  lemma OwnLocationsAscend(v: View, b: Behavior, own: seq<Location>)
    requires UniqueBindings(b) && Distinct(own)
    requires forall l :: l in own <==> exists x :: x in b.bindings && Locates(v, b.id, x, l)
    ensures
      var sorted := Sort(LocationLeq, own);
      PlacesAscend(sorted) && forall l :: l in sorted <==> l in own
  {
    hide Locates, Sort;
    var sorted := Sort(LocationLeq, own);
    PairsAreOrdered();
    LocationsAreOrdered();
    SortAscends(LocationLeq, own);
    SortMembers(LocationLeq, own);
    DistinctRearranged(own, sorted);
    forall i, j | 0 <= i < j < |sorted|
      ensures (sorted[i].relativePath, sorted[i].symbol) != (sorted[j].relativePath, sorted[j].symbol)
    {
      assert sorted[i] in own && sorted[j] in own;
      var x :| x in b.bindings && Locates(v, b.id, x, sorted[i]);
      var y :| y in b.bindings && Locates(v, b.id, y, sorted[j]);
      if (sorted[i].relativePath, sorted[i].symbol) == (sorted[j].relativePath, sorted[j].symbol) {
        LocatedPlace(v, b.id, x, sorted[i]);
        LocatedPlace(v, b.id, y, sorted[j]);
        BindingsDiffer(b);
        LocatesOne(v, b.id, x, y, sorted[i], sorted[j]);
      }
    }
  }

  lemma LocationsAreOrdered()
    ensures Orders(LocationLeq)
  {
    hide PairLeq;
    PairsAreOrdered();
  }

  lemma LocatedPlace(v: View, id: string, x: Binding, l: Location)
    requires Locates(v, id, x, l)
    ensures l.relativePath == x.relativePath && l.symbol == x.symbol
  {}

  lemma RenderedSays(tree: Tree, m: Manifest, commit: string, b: Behavior)
    requires Coherent(m) && Verified(tree, m, commit) && b in m.behaviors
    ensures EntrySays(ViewOf(tree, m, commit), b, RenderBehavior(Inspected(tree, m, commit).locations, b))
  {
    hide Inspected, Coherent, Verified, Filter, Sort, Locates, PlacesAscend, UniqueBindings;
    var v, own := ViewOf(tree, m, commit), Filter(OfBehavior(b.id), Inspected(tree, m, commit).locations);
    OwnLocations(tree, m, commit, b);
    BehaviorsDiffer(m);
    OwnLocationsAscend(v, b, own);
    DeclarationsAreOrdered();
    forall f | f in b.lists
      ensures Ascends(StringLeq, Sort(StringLeq, b.lists[f])) && multiset(Sort(StringLeq, b.lists[f])) == multiset(b.lists[f])
    {
      SortAscends(StringLeq, b.lists[f]);
    }
  }

  /** The entries of a built document: one for each behaviour, in strictly ascending id order, each
      saying what its behaviour declares. */
  lemma EntriesSay(tree: Tree, hashes: Hashes, m: Manifest, commit: string, r: Build)
    requires Coherent(m) && IsBuild(tree, hashes, m, commit, r) && r.Built?
    ensures
      var entries := r.document.behaviors;
      && |entries| == |m.behaviors|
      && (forall i, j :: 0 <= i < j < |entries| ==> StringLeq(entries[i].id, entries[j].id) && entries[i].id != entries[j].id)
      && (forall e :: e in entries ==> exists b :: b in m.behaviors && EntrySays(ViewOf(tree, m, commit), b, e))
      && (forall b :: b in m.behaviors ==> exists e :: e in entries && EntrySays(ViewOf(tree, m, commit), b, e))
  {
    hide Inspected, Coherent, Verified, Contained, Sort, RenderBehavior, EntrySays, IsInverse, Canonical;
    var entries, sorted, locations := r.document.behaviors, Sort(BehaviorLeq, m.behaviors), Inspected(tree, m, commit).locations;
    BuildSucceedsExactly(tree, hashes, m, commit, r);
    BehaviorsDiffer(m);
    DeclarationsAreOrdered();
    SortAscends(BehaviorLeq, m.behaviors);
    SortMembers(BehaviorLeq, m.behaviors);
    DistinctRearranged(m.behaviors, sorted);
    assert |multiset(sorted)| == |multiset(m.behaviors)|;
    forall i | 0 <= i < |sorted|
      ensures sorted[i] in m.behaviors && EntrySays(ViewOf(tree, m, commit), sorted[i], entries[i]) && entries[i].id == sorted[i].id
    {
      RenderedSays(tree, m, commit, sorted[i]);
      SaysId(ViewOf(tree, m, commit), sorted[i], entries[i]);
    }
    forall b | b in m.behaviors
      ensures exists e :: e in entries && EntrySays(ViewOf(tree, m, commit), b, e)
    {
      assert b in sorted;
      var i :| 0 <= i < |sorted| && sorted[i] == b;
      assert entries[i] in entries;
    }
  }

  lemma SaysId(v: View, b: Behavior, e: Rendered)
    requires EntrySays(v, b, e)
    ensures e.id == b.id
  {}
}
