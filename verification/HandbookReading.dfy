/** Reading a whole handbook back: the blocks between the empty lines of the Markdown, and the entry each
    of them belongs to. */
module HandbookReading {
  import opened Common
  import opened HandbookManifest
  import opened HandbookDocument
  import opened HandbookPrinter
  import opened HandbookMarkdown

  /** A line as its inlines were read. */
  type Row = seq<Token>

  type Block = seq<Row>

  // ---- blocks ----

  /** The runs of nonempty lines; every empty line ends one. */
  function Blocks(rows: seq<Row>): (blocks: seq<Block>)
    ensures blocks != []
  {
    if rows == [] then [[]]
    else
      var rest := Blocks(rows[1..]);
      if rows[0] == [] then [[]] + rest else [[rows[0]] + rest[0]] + rest[1..]
  }

  /** Each block and an empty line after it. */
  function Spread(blocks: seq<Block>): seq<Row>
  {
    if blocks == [] then [] else blocks[0] + [[]] + Spread(blocks[1..])
  }

  /** No line of a block is empty. */
  ghost predicate Full(block: Block)
  {
    forall i :: 0 <= i < |block| ==> block[i] != []
  }

  ghost predicate Solid(blocks: seq<Block>)
  {
    forall i :: 0 <= i < |blocks| ==> Full(blocks[i])
  }

  lemma {:induction false} FirstBlock(block: Block, rest: seq<Row>)
    requires Full(block)
    ensures Blocks(block + [[]] + rest) == [block] + Blocks(rest)
  {
    var rows := block + [[]] + rest;
    if block == [] {
      assert rows[1..] == rest && rows[0] == [];
    } else {
      FirstBlock(block[1..], rest);
      assert rows[1..] == block[1..] + [[]] + rest && rows[0] == block[0] != [];
      assert [block[0]] + block[1..] == block;
    }
  }

  lemma {:induction false} BlocksOfSpread(blocks: seq<Block>)
    requires Solid(blocks)
    ensures Blocks(Spread(blocks)) == blocks + [[]]
  {
    hide Blocks, Full;
    if blocks == [] {
      NoBlocks();
    } else {
      FirstBlock(blocks[0], Spread(blocks[1..]));
      BlocksOfSpread(blocks[1..]);
      assert [blocks[0]] + (blocks[1..] + [[]]) == blocks + [[]];
    }
  }

  lemma NoBlocks()
    ensures Blocks([]) == [[]]
  {}

  lemma {:induction false} SpreadJoins(xs: seq<Block>, ys: seq<Block>)
    ensures Spread(xs + ys) == Spread(xs) + Spread(ys)
  {
    if xs == [] {
      assert xs + ys == ys;
    } else {
      SpreadJoins(xs[1..], ys);
      assert (xs + ys)[1..] == xs[1..] + ys;
    }
  }

  lemma SpreadOne(block: Block)
    ensures Spread([block]) == block + [[]]
  {
    assert [block][1..] == [];
    assert Spread([]) == [];
  }

  // ---- what a document shows ----

  function Labelling(prefix: string, value: string): Row
  {
    Characters(prefix) + [Code(value)]
  }

  function Heading(b: Rendered): Block
  {
    [Labelling("### ", b.id)]
  }

  function TextItems(values: seq<string>): Block
  {
    seq(|values|, i requires 0 <= i < |values| => Characters("- ") + Characters(values[i]))
  }

  function CodeItems(values: seq<string>): Block
  {
    seq(|values|, i requires 0 <= i < |values| => Labelling("- ", values[i]))
  }

  function ItemsOrNone(values: seq<string>): Block
  {
    if values == [] then [Characters("- None")] else CodeItems(values)
  }

  function ShownSummary(b: Rendered): seq<Block>
  {
    [Heading(b)] + [[Characters(b.summary)]]
  }

  function ShownContracts(b: Rendered): seq<Block>
  {
    [Heading(b)] + [[Characters("Contracts:")]] + [TextItems(Field(b, CONTRACTS))]
    + [[Characters("Dependencies:")]] + [ItemsOrNone(Field(b, DEPENDENCIES))]
    + [[Characters(RULE_VERSIONS)]] + [ItemsOrNone(Field(b, RULES))]
  }

  function ShownPlaces(locations: seq<Location>): Block
  {
    seq(|locations|, i requires 0 <= i < |locations| => LocationTokens(locations[i].moduleName, locations[i].symbol, locations[i].kind))
  }

  function ShownModules(b: Rendered): seq<Block>
  {
    [Heading(b)] + [ShownPlaces(b.locations)]
  }

  function ShownReference(l: Location): Block
  {
    [Labelling("- Commit: ", l.commit),
     Labelling("  - Source: ", l.relativePath + ":" + Decimal(l.startLine)) + Characters(" through line " + Decimal(l.endLine)),
     Labelling("  - Symbol: ", l.symbol), Labelling("  - File " + SHA, l.sourceHash), Labelling("  - Symbol " + SHA, l.symbolHash)]
  }

  function ShownSources(b: Rendered): seq<Block>
  {
    [Heading(b)] + [Flat(ShownReference, b.locations)] + [[Characters("Tests:")]] + [CodeItems(Field(b, TESTS))]
  }

  function ShownHeader(d: Document): seq<Block>
  {
    [[Characters(HANDBOOK)]] + [[Characters(NOTICE), Characters(LIMITS)]]
    + [[Labelling("- Repository: ", d.repository), Labelling("- Repository " + "commit: ", d.commit),
        Labelling("- Manifest " + SHA, d.manifestHash), Labelling("- Source-tree " + SHA, d.treeHash)]]
  }

  /** The four levels, each with one group of blocks for every entry, in order. */
  function Shown(d: Document): seq<Block>
  {
    ShownHeader(d)
    + [[Characters(LEVEL1)]] + Flat(ShownSummary, d.behaviors)
    + [[Characters(LEVEL2)]] + Flat(ShownContracts, d.behaviors)
    + [[Characters(LEVEL3)]] + Flat(ShownModules, d.behaviors)
    + [[Characters(LEVEL4)]] + Flat(ShownSources, d.behaviors)
  }

  // ---- the template shows it ----

  function Meanings(lines: seq<Line>): seq<Row>
  {
    seq(|lines|, i requires 0 <= i < |lines| => Meaning(lines[i]))
  }

  lemma MeaningsJoin(xs: seq<Line>, ys: seq<Line>)
    ensures Meanings(xs + ys) == Meanings(xs) + Meanings(ys)
  {}

  lemma {:induction false} FlatShows<A>(f: A -> seq<Line>, g: A -> seq<Block>, xs: seq<A>)
    requires forall i :: 0 <= i < |xs| ==> Meanings(f(xs[i])) == Spread(g(xs[i]))
    ensures Meanings(Flat(f, xs)) == Spread(Flat(g, xs))
  {
    hide Meanings, Spread;
    if xs == [] {
      NothingShown();
    } else {
      var n := |xs| - 1;
      FlatShows(f, g, xs[..n]);
      MeaningsJoin(Flat(f, xs[..n]), f(xs[n]));
      SpreadJoins(Flat(g, xs[..n]), g(xs[n]));
    }
  }

  lemma NothingShown()
    ensures Meanings([]) == [] && Spread([]) == []
  {}

  lemma {:induction false} FlatRows<A>(f: A -> seq<Line>, g: A -> Row, xs: seq<A>)
    requires forall i :: 0 <= i < |xs| ==> Meanings(f(xs[i])) == [g(xs[i])]
    ensures Meanings(Flat(f, xs)) == seq(|xs|, i requires 0 <= i < |xs| => g(xs[i]))
  {
    hide Meanings;
    if xs == [] {
      NothingShown();
    } else {
      var n := |xs| - 1;
      FlatRows(f, g, xs[..n]);
      MeaningsJoin(Flat(f, xs[..n]), f(xs[n]));
      assert seq(n, i requires 0 <= i < n => g(xs[..n][i])) + [g(xs[n])] == seq(|xs|, i requires 0 <= i < |xs| => g(xs[i]));
    }
  }

  lemma {:induction false} FlatBlocks<A>(f: A -> seq<Line>, g: A -> Block, xs: seq<A>)
    requires forall i :: 0 <= i < |xs| ==> Meanings(f(xs[i])) == g(xs[i])
    ensures Meanings(Flat(f, xs)) == Flat(g, xs)
  {
    hide Meanings;
    if xs == [] {
      NothingShown();
    } else {
      var n := |xs| - 1;
      FlatBlocks(f, g, xs[..n]);
      MeaningsJoin(Flat(f, xs[..n]), f(xs[n]));
    }
  }

  lemma LiteralMeans(text: string)
    ensures Meaning([Literal(text)]) == Characters(text) && Meaning([Escaped(text)]) == Characters(text) && Meaning([]) == []
  {
    assert [Literal(text)][1..] == [] && [Escaped(text)][1..] == [];
  }

  lemma PairMeans(p: Piece, q: Piece)
    ensures Meaning([p, q]) == MeaningOf(p) + MeaningOf(q)
  {
    assert [p, q][1..] == [q] && [q][1..] == [];
    assert Meaning([q]) == MeaningOf(q) + Meaning([]);
    assert Meaning([]) == [];
  }

  lemma LabelledShows(prefix: string, value: string)
    ensures Meaning(Labelled(prefix, value)) == Labelling(prefix, value)
  {
    LabelledMeaning(prefix, value);
  }

  lemma TitledShows(title: string)
    ensures Meanings(Titled(title)) == Spread([[Characters(title)]])
  {
    LiteralMeans(title);
    SpreadOne([Characters(title)]);
  }

  lemma EntryTitleShows(b: Rendered)
    ensures Meanings(EntryTitle(b)) == Spread([Heading(b)])
  {
    hide Labelled;
    LabelledShows("### ", b.id);
    LiteralMeans("");
    SpreadOne(Heading(b));
  }

  lemma EndedBlock(lines: seq<Line>, block: Block)
    requires Meanings(lines) == block
    ensures Meanings(lines + [[]]) == Spread([block])
  {
    MeaningsJoin(lines, [[]]);
    LiteralMeans("");
    SpreadOne(block);
  }

  lemma Continued(lines: seq<Line>, blocks: seq<Block>, more: seq<Line>, next: seq<Block>)
    requires Meanings(lines) == Spread(blocks) && Meanings(more) == Spread(next)
    ensures Meanings(lines + more) == Spread(blocks + next)
  {
    hide Meanings, Spread;
    MeaningsJoin(lines, more);
    SpreadJoins(blocks, next);
  }

  lemma SummaryShows(b: Rendered)
    ensures Meanings(SummaryLines(b)) == Spread(ShownSummary(b))
  {
    EntryTitleShows(b);
    LiteralMeans(b.summary);
    assert Meanings([[Escaped(b.summary)]]) == [Characters(b.summary)];
    EndedBlock([[Escaped(b.summary)]], [Characters(b.summary)]);
    hide EntryTitle, Meanings, Spread, Heading;
    Continued(EntryTitle(b), [Heading(b)], [[Escaped(b.summary)]] + [[]], [[Characters(b.summary)]]);
    assert [[Escaped(b.summary)], []] == [[Escaped(b.summary)]] + [[]];
  }

  lemma TextItemsShow(values: seq<string>)
    ensures Meanings(Flat(TextBullet, values)) == TextItems(values)
  {
    forall i | 0 <= i < |values|
      ensures Meanings(TextBullet(values[i])) == [TextItem()(values[i])]
    {
      PairMeans(Literal("- "), Escaped(values[i]));
    }
    FlatRows(TextBullet, TextItem(), values);
  }

  function TextItem(): string -> Row
  {
    (value: string) => Characters("- ") + Characters(value)
  }

  function CodeItem(): string -> Row
  {
    (value: string) => Labelling("- ", value)
  }

  lemma CodeItemsShow(values: seq<string>)
    ensures Meanings(Flat(SpanBullet, values)) == CodeItems(values)
    ensures Meanings(Values(values)) == ItemsOrNone(values)
  {
    forall i | 0 <= i < |values|
      ensures Meanings(SpanBullet(values[i])) == [CodeItem()(values[i])]
    {
      LabelledShows("- ", values[i]);
    }
    FlatRows(SpanBullet, CodeItem(), values);
    LiteralMeans("- None");
  }

  lemma ContractsShow(b: Rendered)
    ensures Meanings(ContractLines(b)) == Spread(ShownContracts(b))
  {
    hide EntryTitle, Meanings, Spread, Titled, Values, Flat, Field, ItemsOrNone, TextItems, Heading;
    EntryTitleShows(b);
    TitledShows("Contracts:");
    TitledShows("Dependencies:");
    TitledShows(RULE_VERSIONS);
    TextItemsShow(Field(b, CONTRACTS));
    CodeItemsShow(Field(b, DEPENDENCIES));
    CodeItemsShow(Field(b, RULES));
    var contracts, dependencies, rules := Flat(TextBullet, Field(b, CONTRACTS)), Values(Field(b, DEPENDENCIES)), Values(Field(b, RULES));
    var c, d, r := TextItems(Field(b, CONTRACTS)), ItemsOrNone(Field(b, DEPENDENCIES)), ItemsOrNone(Field(b, RULES));
    EndedBlock(contracts, c);
    EndedBlock(dependencies, d);
    EndedBlock(rules, r);
    var l1, s1 := EntryTitle(b) + Titled("Contracts:"), [Heading(b)] + [[Characters("Contracts:")]];
    Continued(EntryTitle(b), [Heading(b)], Titled("Contracts:"), [[Characters("Contracts:")]]);
    Continued(l1, s1, contracts + [[]], [c]);
    var l2, s2 := l1 + (contracts + [[]]), s1 + [c];
    Continued(l2, s2, Titled("Dependencies:"), [[Characters("Dependencies:")]]);
    var l3, s3 := l2 + Titled("Dependencies:"), s2 + [[Characters("Dependencies:")]];
    Continued(l3, s3, dependencies + [[]], [d]);
    var l4, s4 := l3 + (dependencies + [[]]), s3 + [d];
    Continued(l4, s4, Titled(RULE_VERSIONS), [[Characters(RULE_VERSIONS)]]);
    var l5, s5 := l4 + Titled(RULE_VERSIONS), s4 + [[Characters(RULE_VERSIONS)]];
    Continued(l5, s5, rules + [[]], [r]);
    assert ContractLines(b) == l5 + (rules + [[]]);
  }

  lemma PlaceShows(l: Location)
    ensures Meaning(LocationLine(l.moduleName, l.symbol, l.kind)) == LocationTokens(l.moduleName, l.symbol, l.kind)
  {
    var m, s, k := l.moduleName, l.symbol, l.kind;
    var suffix := KindSuffix(k);
    var tail := [Literal(" \U{2014} ")] + ([Span(s)] + suffix);
    MeaningCons(Literal(")"), []);
    MeaningCons(Escaped(k), [Literal(")")] + []);
    MeaningCons(Literal(" ("), [Escaped(k)] + ([Literal(")")] + []));
    MeaningCons(Span(s), suffix);
    MeaningCons(Literal(" \U{2014} "), [Span(s)] + suffix);
    MeaningCons(Span(m), tail);
    MeaningCons(Literal("- "), [Span(m)] + tail);
    hide Characters;
    assert Meaning([]) == [];
  }

  function PlaceRow(): Location -> Row
  {
    (l: Location) => LocationTokens(l.moduleName, l.symbol, l.kind)
  }

  lemma ModulesShow(b: Rendered)
    ensures Meanings(ModuleLines(b)) == Spread(ShownModules(b))
  {
    forall i | 0 <= i < |b.locations|
      ensures Meanings(LocationBullet(b.locations[i])) == [PlaceRow()(b.locations[i])]
    {
      PlaceShows(b.locations[i]);
    }
    FlatRows(LocationBullet, PlaceRow(), b.locations);
    EntryTitleShows(b);
    EndedBlock(Flat(LocationBullet, b.locations), ShownPlaces(b.locations));
    hide EntryTitle, Meanings, Spread, Flat, Heading, ShownPlaces;
    Continued(EntryTitle(b), [Heading(b)], Flat(LocationBullet, b.locations) + [[]], [ShownPlaces(b.locations)]);
    assert ModuleLines(b) == EntryTitle(b) + (Flat(LocationBullet, b.locations) + [[]]);
  }

  lemma SourceShows(l: Location)
    ensures Meaning(SourceLine(l))
         == Labelling("  - Source: ", l.relativePath + ":" + Decimal(l.startLine)) + Characters(" through line " + Decimal(l.endLine))
  {
    hide Characters, Decimal;
    var value, text := l.relativePath + ":" + Decimal(l.startLine), " through line " + Decimal(l.endLine);
    var line := SourceLine(l);
    assert line[1..] == [Span(value), Literal(text)];
    PairMeans(Span(value), Literal(text));
    assert Meaning(line) == MeaningOf(line[0]) + Meaning(line[1..]);
  }

  lemma ReferenceShows(l: Location)
    ensures Meanings(ReferenceLines(l)) == ShownReference(l)
  {
    hide Labelled, SourceLine, Labelling, Characters, Decimal;
    SourceShows(l);
    LabelledShows("- Commit: ", l.commit);
    LabelledShows("  - Symbol: ", l.symbol);
    LabelledShows("  - File " + SHA, l.sourceHash);
    LabelledShows("  - Symbol " + SHA, l.symbolHash);
  }

  lemma SourcesShow(b: Rendered)
    ensures Meanings(SourceLines(b)) == Spread(ShownSources(b))
  {
    hide EntryTitle, Meanings, Spread, Titled, Flat, Field, CodeItems, Heading;
    forall i | 0 <= i < |b.locations|
      ensures Meanings(ReferenceLines(b.locations[i])) == ShownReference(b.locations[i])
    {
      ReferenceShows(b.locations[i]);
    }
    FlatBlocks(ReferenceLines, ShownReference, b.locations);
    EntryTitleShows(b);
    TitledShows("Tests:");
    CodeItemsShow(Field(b, TESTS));
    var references, tests := Flat(ReferenceLines, b.locations), Flat(SpanBullet, Field(b, TESTS));
    EndedBlock(references, Flat(ShownReference, b.locations));
    EndedBlock(tests, CodeItems(Field(b, TESTS)));
    Continued(EntryTitle(b), [Heading(b)], references + [[]], [Flat(ShownReference, b.locations)]);
    var l1, s1 := EntryTitle(b) + (references + [[]]), [Heading(b)] + [Flat(ShownReference, b.locations)];
    Continued(l1, s1, Titled("Tests:"), [[Characters("Tests:")]]);
    var l2, s2 := l1 + Titled("Tests:"), s1 + [[Characters("Tests:")]];
    Continued(l2, s2, tests + [[]], [CodeItems(Field(b, TESTS))]);
    assert SourceLines(b) == l2 + (tests + [[]]);
  }

  function HeaderLabels(d: Document): seq<Line>
  {
    [Labelled("- Repository: ", d.repository), Labelled("- Repository " + "commit: ", d.commit),
     Labelled("- Manifest " + SHA, d.manifestHash), Labelled("- Source-tree " + SHA, d.treeHash)]
  }

  function ShownLabels(d: Document): Block
  {
    [Labelling("- Repository: ", d.repository), Labelling("- Repository " + "commit: ", d.commit),
     Labelling("- Manifest " + SHA, d.manifestHash), Labelling("- Source-tree " + SHA, d.treeHash)]
  }

  lemma LabelsShow(d: Document)
    ensures Meanings(HeaderLabels(d)) == ShownLabels(d)
  {
    hide Characters, Labelled, Labelling, Meaning;
    LabelledShows("- Repository: ", d.repository);
    LabelledShows("- Repository " + "commit: ", d.commit);
    LabelledShows("- Manifest " + SHA, d.manifestHash);
    LabelledShows("- Source-tree " + SHA, d.treeHash);
  }

  lemma NoticesShow()
    ensures Meanings([[Literal(HANDBOOK)]]) == [Characters(HANDBOOK)]
    ensures Meanings([[Literal(NOTICE)], [Literal(LIMITS)]]) == [Characters(NOTICE), Characters(LIMITS)]
  {
    hide Characters, Meaning;
    LiteralMeans(HANDBOOK);
    LiteralMeans(NOTICE);
    LiteralMeans(LIMITS);
  }

  lemma HeaderParts(d: Document)
    ensures Header(d) == ([[Literal(HANDBOOK)]] + [[]]) + ([[Literal(NOTICE)], [Literal(LIMITS)]] + [[]]) + (HeaderLabels(d) + [[]])
  {
    hide Labelled;
  }

  lemma HeaderShows(d: Document)
    ensures Meanings(Header(d)) == Spread(ShownHeader(d))
  {
    hide Meanings, Spread, Characters, Labelled, Labelling, HeaderLabels, Header;
    HeaderParts(d);
    NoticesShow();
    LabelsShow(d);
    var first, second := [[Literal(HANDBOOK)]], [[Literal(NOTICE)], [Literal(LIMITS)]];
    var a, b := [Characters(HANDBOOK)], [Characters(NOTICE), Characters(LIMITS)];
    EndedBlock(first, a);
    EndedBlock(second, b);
    EndedBlock(HeaderLabels(d), ShownLabels(d));
    Continued(first + [[]], [a], second + [[]], [b]);
    Continued((first + [[]]) + (second + [[]]), [a] + [b], HeaderLabels(d) + [[]], [ShownLabels(d)]);
  }

  lemma LinesShow(d: Document)
    ensures Meanings(Lines(d)) == Spread(Shown(d))
  {
    hide Header, ShownHeader, Titled, Flat, SummaryLines, ContractLines, ModuleLines, SourceLines, ShownSummary, ShownContracts, ShownModules,
         ShownSources, Meanings, Spread, Characters;
    HeaderShows(d);
    TitledShows(LEVEL1);
    TitledShows(LEVEL2);
    TitledShows(LEVEL3);
    TitledShows(LEVEL4);
    forall i | 0 <= i < |d.behaviors|
      ensures Meanings(SummaryLines(d.behaviors[i])) == Spread(ShownSummary(d.behaviors[i]))
      ensures Meanings(ContractLines(d.behaviors[i])) == Spread(ShownContracts(d.behaviors[i]))
      ensures Meanings(ModuleLines(d.behaviors[i])) == Spread(ShownModules(d.behaviors[i]))
      ensures Meanings(SourceLines(d.behaviors[i])) == Spread(ShownSources(d.behaviors[i]))
    {
      SummaryShows(d.behaviors[i]);
      ContractsShow(d.behaviors[i]);
      ModulesShow(d.behaviors[i]);
      SourcesShow(d.behaviors[i]);
    }
    FlatShows(SummaryLines, ShownSummary, d.behaviors);
    FlatShows(ContractLines, ShownContracts, d.behaviors);
    FlatShows(ModuleLines, ShownModules, d.behaviors);
    FlatShows(SourceLines, ShownSources, d.behaviors);
    var l1, s1 := Header(d) + Titled(LEVEL1), ShownHeader(d) + [[Characters(LEVEL1)]];
    Continued(Header(d), ShownHeader(d), Titled(LEVEL1), [[Characters(LEVEL1)]]);
    Continued(l1, s1, Flat(SummaryLines, d.behaviors), Flat(ShownSummary, d.behaviors));
    var l2, s2 := l1 + Flat(SummaryLines, d.behaviors), s1 + Flat(ShownSummary, d.behaviors);
    Continued(l2, s2, Titled(LEVEL2), [[Characters(LEVEL2)]]);
    var l3, s3 := l2 + Titled(LEVEL2), s2 + [[Characters(LEVEL2)]];
    Continued(l3, s3, Flat(ContractLines, d.behaviors), Flat(ShownContracts, d.behaviors));
    var l4, s4 := l3 + Flat(ContractLines, d.behaviors), s3 + Flat(ShownContracts, d.behaviors);
    Continued(l4, s4, Titled(LEVEL3), [[Characters(LEVEL3)]]);
    var l5, s5 := l4 + Titled(LEVEL3), s4 + [[Characters(LEVEL3)]];
    Continued(l5, s5, Flat(ModuleLines, d.behaviors), Flat(ShownModules, d.behaviors));
    var l6, s6 := l5 + Flat(ModuleLines, d.behaviors), s5 + Flat(ShownModules, d.behaviors);
    Continued(l6, s6, Titled(LEVEL4), [[Characters(LEVEL4)]]);
    var l7, s7 := l6 + Titled(LEVEL4), s6 + [[Characters(LEVEL4)]];
    Continued(l7, s7, Flat(SourceLines, d.behaviors), Flat(ShownSources, d.behaviors));
  }

  // ---- no shown line is empty ----

  lemma CharactersFull(text: string)
    requires text != ""
    ensures Characters(text) != [] && Full([Characters(text)])
  {}

  lemma TemplateFull(text: string)
    requires Template(text)
    ensures Full([Characters(text)]) && Characters(text) != []
  {
    CharactersFull(text);
  }

  lemma ItemsFull(values: seq<string>)
    ensures Full(TextItems(values)) && Full(CodeItems(values)) && Full(ItemsOrNone(values))
  {
    hide Characters;
    CharactersFull("- ");
    CharactersFull("- None");
  }

  lemma EntryFull(b: Rendered)
    requires b.summary != ""
    ensures Solid(ShownSummary(b)) && Solid(ShownContracts(b)) && Solid(ShownModules(b)) && Solid(ShownSources(b))
  {
    hide Characters, Field, TextItems, CodeItems, ItemsOrNone, Flat, Decimal;
    CharactersFull(b.summary);
    ItemsFull(Field(b, CONTRACTS));
    ItemsFull(Field(b, DEPENDENCIES));
    ItemsFull(Field(b, RULES));
    ItemsFull(Field(b, TESTS));
    CharactersFull("Contracts:");
    CharactersFull("Dependencies:");
    CharactersFull("Tests:");
    RuleVersionsIsTemplate();
    TemplateFull(RULE_VERSIONS);
    CharactersFull("- ");
    ReferencesFull(b.locations);
    assert Full(Heading(b));
    assert Full(ShownPlaces(b.locations));
  }

  lemma {:induction false} ReferencesFull(locations: seq<Location>)
    ensures Full(Flat(ShownReference, locations))
  {
    hide Characters, Decimal;
    if locations != [] {
      ReferencesFull(locations[..|locations| - 1]);
      assert Full(ShownReference(locations[|locations| - 1]));
    }
  }

  lemma SolidJoin(xs: seq<Block>, ys: seq<Block>)
    requires Solid(xs) && Solid(ys)
    ensures Solid(xs + ys)
  {}

  lemma {:induction false} SolidFlat(g: Rendered -> seq<Block>, bs: seq<Rendered>)
    requires forall i :: 0 <= i < |bs| ==> Solid(g(bs[i]))
    ensures Solid(Flat(g, bs))
  {
    hide Solid;
    if bs == [] {
      SolidNothing();
    } else {
      SolidFlat(g, bs[..|bs| - 1]);
      SolidJoin(Flat(g, bs[..|bs| - 1]), g(bs[|bs| - 1]));
    }
  }

  lemma SolidNothing()
    ensures Solid([])
  {}

  lemma SolidOne(text: string)
    requires Template(text)
    ensures Solid([[Characters(text)]])
  {
    TemplateFull(text);
  }

  lemma HeaderSolid(d: Document)
    ensures Solid(ShownHeader(d))
  {
    hide Characters, Template;
    HandbookIsTemplate();
    NoticeIsTemplate();
    LimitsIsTemplate();
    TemplateFull(HANDBOOK);
    TemplateFull(NOTICE);
    TemplateFull(LIMITS);
  }

  lemma ShownSolid(d: Document)
    requires PrintableDocument(d)
    ensures Solid(Shown(d))
  {
    hide ShownHeader, ShownSummary, ShownContracts, ShownModules, ShownSources, Solid, Flat, Characters, Template, Printable;
    HeaderSolid(d);
    LevelOneIsTemplate();
    LevelTwoIsTemplate();
    LevelThreeIsTemplate();
    LevelFourIsTemplate();
    SolidOne(LEVEL1);
    SolidOne(LEVEL2);
    SolidOne(LEVEL3);
    SolidOne(LEVEL4);
    forall i | 0 <= i < |d.behaviors|
      ensures Solid(ShownSummary(d.behaviors[i])) && Solid(ShownContracts(d.behaviors[i]))
      ensures Solid(ShownModules(d.behaviors[i])) && Solid(ShownSources(d.behaviors[i]))
    {
      assert PrintableEntry(d.behaviors[i]);
      EntryFull(d.behaviors[i]);
    }
    SolidFlat(ShownSummary, d.behaviors);
    SolidFlat(ShownContracts, d.behaviors);
    SolidFlat(ShownModules, d.behaviors);
    SolidFlat(ShownSources, d.behaviors);
    var s1 := ShownHeader(d) + [[Characters(LEVEL1)]];
    SolidJoin(ShownHeader(d), [[Characters(LEVEL1)]]);
    SolidJoin(s1, Flat(ShownSummary, d.behaviors));
    var s2 := s1 + Flat(ShownSummary, d.behaviors);
    SolidJoin(s2, [[Characters(LEVEL2)]]);
    SolidJoin(s2 + [[Characters(LEVEL2)]], Flat(ShownContracts, d.behaviors));
    var s3 := s2 + [[Characters(LEVEL2)]] + Flat(ShownContracts, d.behaviors);
    SolidJoin(s3, [[Characters(LEVEL3)]]);
    SolidJoin(s3 + [[Characters(LEVEL3)]], Flat(ShownModules, d.behaviors));
    var s4 := s3 + [[Characters(LEVEL3)]] + Flat(ShownModules, d.behaviors);
    SolidJoin(s4, [[Characters(LEVEL4)]]);
    SolidJoin(s4 + [[Characters(LEVEL4)]], Flat(ShownSources, d.behaviors));
  }

  /** Every line of a text, read. */
  function ReadLines(text: string): seq<Row>
  {
    var lines := Split(text);
    seq(|lines|, i requires 0 <= i < |lines| => ReadInline(lines[i]))
  }

  /** A reader of the Markdown, who reads each line's inlines and groups lines between empty ones, gets
      the header, and at each level every entry's own values under its own heading, in order. */
  lemma MarkdownShows(d: Document)
    requires PrintableDocument(d)
    ensures Blocks(ReadLines(Markdown(d))) == Shown(d) + [[]]
  {
    hide Markdown, Split, ReadInline, Lines, Shown, Meaning, Blocks, PrintableDocument;
    MarkdownReadsBack(d);
    assert ReadLines(Markdown(d)) == Meanings(Lines(d));
    LinesShow(d);
    ShownSolid(d);
    BlocksOfSpread(Shown(d));
  }
}
