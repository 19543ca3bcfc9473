/** What each finding of a handbook inspection means. */
module HandbookFindings {
  import opened Common
  import opened Ordering
  import opened HandbookManifest
  import opened HandbookDocument

  /** The defect of a binding behind a code. Sources are only compared once the commit is verified. */
  predicate BrokenBinding(v: View, x: Binding, code: Code)
  {
    var file, blob, python := v.tree.file(x.relativePath), v.tree.blob(v.commit, x.relativePath), v.tree.python(x.relativePath);
    match code
    case SourceNotFound => !file.present
    case SourceNotRegular => file.present && !file.regular
    case SourceNotPython => !python
    case CommitSourceMismatch => v.verified && (blob.None? || blob.value.hash != x.sourceHash)
    case CheckoutStale => v.verified && blob.Some? && !v.tree.clean(v.commit, x.relativePath)
    case EncodingError => v.verified && blob.Some? && python && blob.value.parsed.BadEncoding?
    case SyntaxError => v.verified && blob.Some? && python && blob.value.parsed.BadSyntax?
    case SymbolNotFound => v.verified && blob.Some? && python && blob.value.parsed.Symbols? && x.symbol !in blob.value.parsed.facts
    case _ => false
  }

  predicate BrokenTest(file: File, code: Code)
  {
    (code == TestNotFound && !file.present) || (code == TestNotRegular && file.present && !file.regular)
  }

  predicate BrokenCommit(tree: Tree, m: Manifest, commit: string, code: Code)
  {
    match code
    case CommitMismatch => commit != m.commit
    case CommitNotFound => commit == m.commit && tree.objects(commit).Absent?
    case NotACommit => commit == m.commit && tree.objects(commit).OtherObject?
    case _ => false
  }

  /** The finding is of the commit, of a declared binding, or of a declared test path. */
  ghost predicate Holds(tree: Tree, m: Manifest, commit: string, f: Finding)
  {
    var v := ViewOf(tree, m, commit);
    || (f.behaviorId.None? && f.location.None? && BrokenCommit(tree, m, commit, f.code))
    || (exists p :: p in DeclaredBindings(m.behaviors) && f == Finding(f.code, Some(p.1), Some(p.0.relativePath + ":" + p.0.symbol))
                    && BrokenBinding(v, p.0, f.code))
    || (exists p :: p in DeclaredValues(TESTS, m.behaviors) && f == Finding(f.code, Some(p.1), Some(p.0)) && BrokenTest(tree.file(p.0), f.code))
  }

  lemma BindingFindingsExactly(v: View, id: string, x: Binding, f: Finding)
    ensures f in BindingFindings(v, id, x) <==>
      f == Finding(f.code, Some(id), Some(x.relativePath + ":" + x.symbol)) && BrokenBinding(v, x, f.code)
  {}

  lemma TestFindingsExactly(v: View, id: string, path: string, f: Finding)
    ensures f in TestFindings(v, id, path) <==> f == Finding(f.code, Some(id), Some(path)) && BrokenTest(v.tree.file(path), f.code)
  {}

  lemma CommitFindingsExactly(tree: Tree, m: Manifest, commit: string, f: Finding)
    ensures f in CommitFindings(tree, m, commit) <==> f.behaviorId.None? && f.location.None? && BrokenCommit(tree, m, commit, f.code)
  {}

  ghost predicate EntryBroken(v: View, b: Behavior, f: Finding)
  {
    || (exists x :: x in b.bindings && f == Finding(f.code, Some(b.id), Some(x.relativePath + ":" + x.symbol)) && BrokenBinding(v, x, f.code))
    || (exists path :: path in ListOf(b, TESTS) && f == Finding(f.code, Some(b.id), Some(path)) && BrokenTest(v.tree.file(path), f.code))
  }

  lemma EntryFindingsExactly(v: View, b: Behavior, f: Finding)
    ensures f in BehaviorFindings(v)(b) <==> EntryBroken(v, b, f)
  {
    hide BindingFindings, TestFindings, BrokenBinding, BrokenTest, Sort, Flat;
    SortMembers(BindingLeq, b.bindings);
    SortMembers(StringLeq, ListOf(b, TESTS));
    FlatMembers(FindingsAt(v, b.id), Sort(BindingLeq, b.bindings));
    FlatMembers(TestsAt(v, b.id), Sort(StringLeq, ListOf(b, TESTS)));
    forall x
      ensures f in FindingsAt(v, b.id)(x) <==> f == Finding(f.code, Some(b.id), Some(x.relativePath + ":" + x.symbol)) && BrokenBinding(v, x, f.code)
    {
      BindingFindingsExactly(v, b.id, x, f);
    }
    forall path
      ensures f in TestsAt(v, b.id)(path) <==> f == Finding(f.code, Some(b.id), Some(path)) && BrokenTest(v.tree.file(path), f.code)
    {
      TestFindingsExactly(v, b.id, path, f);
    }
  }

  lemma SomeEntryBroken(tree: Tree, m: Manifest, commit: string, f: Finding)
    requires f.behaviorId.Some?
    ensures (exists b :: b in m.behaviors && EntryBroken(ViewOf(tree, m, commit), b, f)) <==> Holds(tree, m, commit, f)
  {
    hide BrokenBinding, BrokenTest, BrokenCommit;
    var v := ViewOf(tree, m, commit);
    if b :| b in m.behaviors && EntryBroken(v, b, f) {
      if x :| x in b.bindings && f == Finding(f.code, Some(b.id), Some(x.relativePath + ":" + x.symbol)) && BrokenBinding(v, x, f.code) {
        assert (x, b.id) in DeclaredBindings(m.behaviors);
      } else {
        var path :| path in ListOf(b, TESTS) && f == Finding(f.code, Some(b.id), Some(path)) && BrokenTest(v.tree.file(path), f.code);
        assert (path, b.id) in DeclaredValues(TESTS, m.behaviors);
      }
    }
    if Holds(tree, m, commit, f) {
      if p :| p in DeclaredBindings(m.behaviors) && f == Finding(f.code, Some(p.1), Some(p.0.relativePath + ":" + p.0.symbol)) && BrokenBinding(v, p.0, f.code) {
        var b :| b in m.behaviors && b.id == p.1 && p.0 in b.bindings;
        assert EntryBroken(v, b, f);
      } else {
        var p :| p in DeclaredValues(TESTS, m.behaviors) && f == Finding(f.code, Some(p.1), Some(p.0)) && BrokenTest(tree.file(p.0), f.code);
        var b :| b in m.behaviors && b.id == p.1 && p.0 in ListOf(b, TESTS);
        assert EntryBroken(v, b, f);
      }
    }
  }

  /** An inspection reports each defect of the commit, of a declared binding and of a declared test path
      under its own code, once, and nothing else. */
  lemma FindingsExactly(tree: Tree, m: Manifest, commit: string, f: Finding)
    ensures f in Inspected(tree, m, commit).findings <==> Holds(tree, m, commit, f)
    ensures Distinct(Inspected(tree, m, commit).findings)
  {
    hide CommitFindings, BehaviorFindings, Sort, Flat, Deduplicated, EntryBroken, BrokenBinding, BrokenTest, BrokenCommit;
    var v, bs := ViewOf(tree, m, commit), Sort(BehaviorLeq, m.behaviors);
    SortMembers(BehaviorLeq, m.behaviors);
    FlatMembers(BehaviorFindings(v), bs);
    DeduplicatedEmpty(CommitFindings(tree, m, commit) + Flat(BehaviorFindings(v), bs));
    CommitFindingsExactly(tree, m, commit, f);
    forall b ensures f in BehaviorFindings(v)(b) <==> EntryBroken(v, b, f)
    {
      EntryFindingsExactly(v, b, f);
    }
    if f.behaviorId.Some? {
      SomeEntryBroken(tree, m, commit, f);
    } else {
      NamelessEntry(v, f);
    }
  }

  lemma NamelessEntry(v: View, f: Finding)
    requires f.behaviorId.None?
    ensures forall b :: !EntryBroken(v, b, f)
  {}
}
