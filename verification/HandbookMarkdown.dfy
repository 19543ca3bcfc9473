/** The Markdown form of a built handbook: every template line, and what a reader of the text gets
    back from it. */
module HandbookMarkdown {
  import opened Common
  import opened Ordering
  import opened HandbookManifest
  import opened HandbookDocument
  import opened HandbookPrinter

  type Line = seq<Piece>

  const CONTRACTS := "contracts"
  const DEPENDENCIES := "dependencies"

  function Field(b: Rendered, field: string): seq<string>
  {
    if field in b.lists then b.lists[field] else []
  }

  function Decimal(n: nat): (digits: string)
    ensures digits != "" && forall i :: 0 <= i < |digits| ==> '0' <= digits[i] <= '9'
  {
    if n < 10 then ['0' + n as char] else Decimal(n / 10) + ['0' + (n % 10) as char]
  }

  // ---- the template ----

  const HANDBOOK := "# Verified Behavior Handbook"
  const NOTICE := "> This is a deterministic " + ("derived index of " + ("human-authored behavior " + "declarations."))
  const LIMITS := "> Python syntax verifies " + ("locations only and does not " + "infer behavioral truth.")
  const LEVEL1 := "## Level 1: Summary"
  const LEVEL2 := "## Level 2: Contracts, " + "dependencies, and governing " + "rules"
  const LEVEL3 := "## Level 3: Modules " + "and symbols"
  const LEVEL4 := "## Level 4: Exact commit, " + "path, lines, and hashes"
  const RULE_VERSIONS := "Governing rule versions:"
  const SHA := "SHA-256: "

  function Labelled(prefix: string, value: string): Line
  {
    [Literal(prefix), Span(value)]
  }

  function Header(d: Document): seq<Line>
  {
    [[Literal(HANDBOOK)], [],
     [Literal(NOTICE)],
     [Literal(LIMITS)], [],
     Labelled("- Repository: ", d.repository),
     Labelled("- Repository " + "commit: ", d.commit),
     Labelled("- Manifest " + SHA, d.manifestHash),
     Labelled("- Source-tree " + SHA, d.treeHash), []]
  }

  function Titled(title: string): seq<Line>
  {
    [[Literal(title)], []]
  }

  function EntryTitle(b: Rendered): seq<Line>
  {
    [Labelled("### ", b.id), []]
  }

  function SummaryLines(b: Rendered): seq<Line>
  {
    EntryTitle(b) + [[Escaped(b.summary)], []]
  }

  function TextBullet(value: string): seq<Line>
  {
    [[Literal("- "), Escaped(value)]]
  }

  function SpanBullet(value: string): seq<Line>
  {
    [Labelled("- ", value)]
  }

  function Values(values: seq<string>): seq<Line>
  {
    if values == [] then [[Literal("- None")]] else Flat(SpanBullet, values)
  }

  function ContractLines(b: Rendered): seq<Line>
  {
    EntryTitle(b) + Titled("Contracts:") + Flat(TextBullet, Field(b, CONTRACTS))
    + [[]] + Titled("Dependencies:") + Values(Field(b, DEPENDENCIES))
    + [[]] + Titled(RULE_VERSIONS) + Values(Field(b, RULES)) + [[]]
  }

  function LocationBullet(l: Location): seq<Line>
  {
    [LocationLine(l.moduleName, l.symbol, l.kind)]
  }

  function ModuleLines(b: Rendered): seq<Line>
  {
    EntryTitle(b) + Flat(LocationBullet, b.locations) + [[]]
  }

  function SourceLine(l: Location): Line
  {
    [Literal("  - Source: "), Span(l.relativePath + ":" + Decimal(l.startLine)), Literal(" through line " + Decimal(l.endLine))]
  }

  function ReferenceLines(l: Location): seq<Line>
  {
    [Labelled("- Commit: ", l.commit), SourceLine(l), Labelled("  - Symbol: ", l.symbol),
     Labelled("  - File " + SHA, l.sourceHash), Labelled("  - Symbol " + SHA, l.symbolHash)]
  }

  function ReferenceSection(b: Rendered): seq<Line>
  {
    EntryTitle(b) + Flat(ReferenceLines, b.locations) + [[]] + Titled("Tests:")
  }

  function SourceLines(b: Rendered): seq<Line>
  {
    ReferenceSection(b) + Flat(SpanBullet, Field(b, TESTS)) + [[]]
  }

  function BeforeSources(d: Document): seq<Line>
  {
    Header(d) + Titled(LEVEL1) + Flat(SummaryLines, d.behaviors)
    + Titled(LEVEL2) + Flat(ContractLines, d.behaviors)
    + Titled(LEVEL3) + Flat(ModuleLines, d.behaviors)
    + Titled(LEVEL4)
  }

  function Lines(d: Document): seq<Line>
  {
    BeforeSources(d) + Flat(SourceLines, d.behaviors)
  }

  function Texts(lines: seq<Line>): seq<string>
  {
    seq(|lines|, i requires 0 <= i < |lines| => Render(lines[i]))
  }

  function Join(texts: seq<string>): string
  {
    if texts == [] then ""
    else if |texts| == 1 then texts[0]
    else texts[0] + ("\n" + Join(texts[1..]))
  }

  /** The characters that `str.rstrip` removes. */
  predicate IsSpace(c: char)
  {
    || '\t' <= c <= '\r' || '\U{1C}' <= c <= ' ' || c == '\U{85}' || c == '\U{A0}' || c == '\U{1680}'
    || '\U{2000}' <= c <= '\U{200A}' || c in {'\U{2028}', '\U{2029}', '\U{202F}', '\U{205F}', '\U{3000}'}
  }

  function RightStripped(s: string): string
  {
    if s == "" || !IsSpace(s[|s| - 1]) then s else RightStripped(s[..|s| - 1])
  }

  function Markdown(d: Document): string
  {
    RightStripped(Join(Texts(Lines(d)))) + "\n"
  }

  // ---- what can be printed ----

  predicate Text(value: string)
  {
    value != "" && Printable(value)
  }

  /** What the manifest and location models demand of displayed text, as far as printing goes. */
  ghost predicate PrintableLocation(l: Location)
  {
    && Text(l.commit) && Text(l.relativePath) && Text(l.moduleName) && Text(l.symbol) && Text(l.kind)
    && Text(l.sourceHash) && Text(l.symbolHash)
  }

  ghost predicate AllText(values: seq<string>)
  {
    forall v :: v in values ==> Text(v)
  }

  ghost predicate PrintableEntry(b: Rendered)
  {
    && Text(b.id) && Text(b.summary) && Field(b, TESTS) != []
    && AllText(Field(b, CONTRACTS)) && AllText(Field(b, DEPENDENCIES)) && AllText(Field(b, RULES)) && AllText(Field(b, TESTS))
    && forall l :: l in b.locations ==> PrintableLocation(l)
  }

  ghost predicate PrintableDocument(d: Document)
  {
    && Text(d.repository) && Text(d.commit) && Text(d.manifestHash) && Text(d.treeHash)
    && d.behaviors != [] && forall b :: b in d.behaviors ==> PrintableEntry(b)
  }

  // ---- every template line is well formed ----

  predicate Template(text: string)
  {
    text != "" && forall i :: 0 <= i < |text| ==> text[i] != '`' && text[i] != '\\' && text[i] != '\n'
  }

  predicate OneLine(p: Piece)
  {
    match p
    case Literal(text) => Template(text)
    case Span(value) => Text(value)
    case Escaped(value) => Text(value)
  }

  ghost predicate Plain(line: Line)
  {
    WellFormed(line) && forall p :: p in line ==> OneLine(p)
  }

  ghost predicate AllPlain(lines: seq<Line>)
  {
    forall line :: line in lines ==> Plain(line)
  }

  lemma EmptyIsPlain()
    ensures Plain([]) && AllPlain([[]])
  {}

  lemma PieceIsPlain(p: Piece)
    requires OneLine(p)
    ensures Plain([p]) && AllPlain([[p]])
  {
    assert [p][1..] == [];
  }

  lemma PairIsPlain(p: Piece, q: Piece)
    requires OneLine(p) && OneLine(q) && !(p.Span? && q.Span?)
    ensures Plain([p, q])
  {
    PieceIsPlain(q);
    assert [p, q][1..] == [q];
  }

  lemma LabelledIsPlain(prefix: string, value: string)
    requires Template(prefix) && Text(value)
    ensures Plain(Labelled(prefix, value))
  {
    PairIsPlain(Literal(prefix), Span(value));
  }

  lemma TitledIsPlain(title: string)
    requires Template(title)
    ensures AllPlain(Titled(title))
  {
    PieceIsPlain(Literal(title));
    EmptyIsPlain();
  }

  lemma FlatIsPlain<A(!new)>(f: A -> seq<Line>, xs: seq<A>)
    requires forall x :: x in xs ==> AllPlain(f(x))
    ensures AllPlain(Flat(f, xs))
  {
    FlatMembers(f, xs);
  }

  lemma JoinedIsPlain(xs: seq<Line>, ys: seq<Line>)
    requires AllPlain(xs) && AllPlain(ys)
    ensures AllPlain(xs + ys)
  {}

  lemma HeaderIsPlain(d: Document)
    requires PrintableDocument(d)
    ensures AllPlain(Header(d))
  {
    hide Plain, Template, Text, PrintableEntry, Labelled;
    RepositoryTemplates();
    ManifestTemplates();
    HandbookIsTemplate();
    NoticeIsTemplate();
    LimitsIsTemplate();
    EmptyIsPlain();
    PieceIsPlain(Literal(HANDBOOK));
    PieceIsPlain(Literal(NOTICE));
    PieceIsPlain(Literal(LIMITS));
    LabelledIsPlain("- Repository: ", d.repository);
    LabelledIsPlain("- Repository " + "commit: ", d.commit);
    LabelledIsPlain("- Manifest " + SHA, d.manifestHash);
    LabelledIsPlain("- Source-tree " + SHA, d.treeHash);
  }

  lemma TemplatesJoin(a: string, b: string)
    requires Template(a) && Template(b)
    ensures Template(a + b)
  {}

  lemma NoticeStart()
    ensures Template("> This is a deterministic ") && Template("derived index of ")
  {}

  lemma NoticeEnd()
    ensures Template("human-authored behavior ") && Template("declarations.")
  {}

  lemma NoticeIsTemplate()
    ensures Template(NOTICE)
  {
    NoticeStart();
    NoticeEnd();
    hide Template;
    TemplatesJoin("human-authored behavior ", "declarations.");
    TemplatesJoin("derived index of ", "human-authored behavior " + "declarations.");
    TemplatesJoin("> This is a deterministic ", "derived index of " + ("human-authored behavior " + "declarations."));
  }

  lemma LimitsStart()
    ensures Template("> Python syntax verifies ") && Template("infer behavioral truth.")
  {}

  lemma LimitsMiddle()
    ensures Template("locations only and does not ")
  {}

  lemma LimitsIsTemplate()
    ensures Template(LIMITS)
  {
    LimitsStart();
    LimitsMiddle();
    hide Template;
    TemplatesJoin("locations only and does not ", "infer behavioral truth.");
    TemplatesJoin("> Python syntax verifies ", "locations only and does not " + "infer behavioral truth.");
  }

  lemma HandbookIsTemplate()
    ensures Template(HANDBOOK)
  {}

  lemma LevelOneIsTemplate()
    ensures Template(LEVEL1)
  {}

  lemma LevelTwoParts()
    ensures Template("## Level 2: Contracts, ") && Template("dependencies, and governing ")
  {}

  lemma LevelTwoIsTemplate()
    ensures Template(LEVEL2)
  {
    LevelTwoParts();
    assert Template("rules");
    hide Template;
    TemplatesJoin("## Level 2: Contracts, ", "dependencies, and governing ");
    TemplatesJoin("## Level 2: Contracts, " + "dependencies, and governing ", "rules");
  }

  lemma LevelThreeIsTemplate()
    ensures Template(LEVEL3)
  {
    assert Template("## Level 3: Modules ") && Template("and symbols");
    TemplatesJoin("## Level 3: Modules ", "and symbols");
  }

  lemma LevelFourParts()
    ensures Template("## Level 4: Exact commit, ") && Template("path, lines, and hashes")
  {}

  lemma LevelFourIsTemplate()
    ensures Template(LEVEL4)
  {
    LevelFourParts();
    hide Template;
    TemplatesJoin("## Level 4: Exact commit, ", "path, lines, and hashes");
  }

  lemma RepositoryTemplates()
    ensures Template("- Repository: ") && Template("- Repository " + "commit: ")
  {
    assert Template("- Repository ") && Template("commit: ");
    TemplatesJoin("- Repository ", "commit: ");
  }

  lemma ManifestTemplates()
    ensures Template("- Manifest " + SHA) && Template("- Source-tree " + SHA)
  {
    assert Template("- Manifest ") && Template("- Source-tree ") && Template(SHA);
    TemplatesJoin("- Manifest ", SHA);
    TemplatesJoin("- Source-tree ", SHA);
  }

  lemma TitleTemplates()
    ensures Template("### ") && Template("Contracts:") && Template("Dependencies:") && Template("Tests:")
  {}

  lemma RuleVersionsIsTemplate()
    ensures Template(RULE_VERSIONS)
  {}

  lemma BulletTemplates()
    ensures Template("- ") && Template("- None") && Template("- Commit: ") && Template("  - Source: ")
  {}

  lemma HashTemplates()
    ensures Template("  - Symbol: ") && Template("  - File " + SHA) && Template("  - Symbol " + SHA)
  {
    assert Template("  - File ") && Template("  - Symbol ") && Template(SHA);
    TemplatesJoin("  - File ", SHA);
    TemplatesJoin("  - Symbol ", SHA);
  }

  lemma EntryTitleIsPlain(b: Rendered)
    requires Text(b.id)
    ensures AllPlain(EntryTitle(b))
  {
    hide Plain, Text, Template, Labelled;
    TitleTemplates();
    EmptyIsPlain();
    LabelledIsPlain("### ", b.id);
  }

  lemma SummaryIsPlain(b: Rendered)
    requires PrintableEntry(b)
    ensures AllPlain(SummaryLines(b))
  {
    hide Plain, Text, Template, EntryTitle;
    EntryTitleIsPlain(b);
    EmptyIsPlain();
    PieceIsPlain(Escaped(b.summary));
    JoinedIsPlain(EntryTitle(b), [[Escaped(b.summary)], []]);
  }

  lemma BulletsArePlain(values: seq<string>)
    requires AllText(values)
    ensures AllPlain(Flat(TextBullet, values)) && AllPlain(Flat(SpanBullet, values)) && AllPlain(Values(values))
  {
    hide Plain, Text, Template, Flat, Labelled;
    BulletTemplates();
    forall v | v in values
      ensures AllPlain(TextBullet(v)) && AllPlain(SpanBullet(v))
    {
      PairIsPlain(Literal("- "), Escaped(v));
      LabelledIsPlain("- ", v);
    }
    FlatIsPlain(TextBullet, values);
    FlatIsPlain(SpanBullet, values);
    PieceIsPlain(Literal("- None"));
  }

  lemma ContractsArePlain(b: Rendered)
    requires PrintableEntry(b)
    ensures AllPlain(ContractLines(b))
  {
    hide Plain, Text, Template, Flat, EntryTitle, Titled, Values, Field;
    TitleTemplates();
    RuleVersionsIsTemplate();
    EmptyIsPlain();
    EntryTitleIsPlain(b);
    TitledIsPlain("Contracts:");
    TitledIsPlain("Dependencies:");
    TitledIsPlain(RULE_VERSIONS);
    BulletsArePlain(Field(b, CONTRACTS));
    BulletsArePlain(Field(b, DEPENDENCIES));
    BulletsArePlain(Field(b, RULES));
  }

  lemma LocationIsPlain(l: Location)
    requires PrintableLocation(l)
    ensures AllPlain(LocationBullet(l)) && AllPlain(ReferenceLines(l))
  {
    hide Plain, Text, Template, SourceLine, LocationLine, Labelled;
    BulletTemplates();
    HashTemplates();
    LocationLineIsPlain(l.moduleName, l.symbol, l.kind);
    LabelledIsPlain("- Commit: ", l.commit);
    SourceLineIsPlain(l);
    LabelledIsPlain("  - Symbol: ", l.symbol);
    LabelledIsPlain("  - File " + SHA, l.sourceHash);
    LabelledIsPlain("  - Symbol " + SHA, l.symbolHash);
  }

  lemma LocationLineIsPlain(m: string, s: string, k: string)
    requires Text(m) && Text(s) && Text(k)
    ensures Plain(LocationLine(m, s, k))
  {
    SymbolMeaning(s, k);
    FrontMeaning(m, [Literal(" \U{2014} ")] + ([Span(s)] + KindSuffix(k)));
    LocationTemplates();
    LocationPieces(m, s, k);
  }

  lemma LocationPieces(m: string, s: string, k: string)
    ensures LocationLine(m, s, k)
         == [Literal("- "), Span(m), Literal(" \U{2014} "), Span(s), Literal(" ("), Escaped(k), Literal(")")]
  {}

  lemma LocationTemplates()
    ensures Template("- ") && Template(" \U{2014} ") && Template(" (") && Template(")")
  {}

  lemma ReferenceIsText(path: string, line: nat)
    requires Text(path)
    ensures Text(path + ":" + Decimal(line)) && Template(" through line " + Decimal(line))
  {
    var value, digits := path + ":" + Decimal(line), Decimal(line);
    var i :| 0 <= i < |path| && path[i] != ' ';
    assert value[i] != ' ';
    forall j | 0 <= j < |value|
      ensures !IsLineEnding(value[j])
    {
      assert j > |path| ==> value[j] == digits[j - |path| - 1];
    }
  }

  lemma SourceLineIsPlain(l: Location)
    requires PrintableLocation(l)
    ensures Plain(SourceLine(l))
  {
    hide Text, Template;
    BulletTemplates();
    ReferenceIsText(l.relativePath, l.startLine);
    ReferenceIsText(l.relativePath, l.endLine);
    var line := SourceLine(l);
    PairIsPlain(line[1], line[2]);
    assert line[1..] == [line[1], line[2]];
  }

  lemma ModulesArePlain(b: Rendered)
    requires PrintableEntry(b)
    ensures AllPlain(ModuleLines(b))
  {
    hide Plain, Text, Template, Flat, EntryTitle, LocationBullet, PrintableLocation;
    EmptyIsPlain();
    EntryTitleIsPlain(b);
    forall l | l in b.locations
      ensures AllPlain(LocationBullet(l))
    {
      LocationIsPlain(l);
    }
    FlatIsPlain(LocationBullet, b.locations);
  }

  lemma SourcesArePlain(b: Rendered)
    requires PrintableEntry(b)
    ensures AllPlain(SourceLines(b))
  {
    hide Plain, Text, Template, Flat, EntryTitle, Titled, ReferenceLines, PrintableLocation, Field;
    TitleTemplates();
    EmptyIsPlain();
    EntryTitleIsPlain(b);
    TitledIsPlain("Tests:");
    forall l | l in b.locations
      ensures AllPlain(ReferenceLines(l))
    {
      LocationIsPlain(l);
    }
    FlatIsPlain(ReferenceLines, b.locations);
    BulletsArePlain(Field(b, TESTS));
  }

  /** Every line of the Markdown form of printable text reads back as its pieces. */
  lemma LinesArePlain(d: Document)
    requires PrintableDocument(d)
    ensures AllPlain(Lines(d))
  {
    hide Plain, Text, Template, Flat, Header, Titled, SummaryLines, ContractLines, ModuleLines, SourceLines, PrintableEntry;
    LevelOneIsTemplate();
    LevelTwoIsTemplate();
    LevelThreeIsTemplate();
    LevelFourIsTemplate();
    HeaderIsPlain(d);
    TitledIsPlain(LEVEL1);
    TitledIsPlain(LEVEL2);
    TitledIsPlain(LEVEL3);
    TitledIsPlain(LEVEL4);
    forall b | b in d.behaviors
      ensures AllPlain(SummaryLines(b)) && AllPlain(ContractLines(b)) && AllPlain(ModuleLines(b)) && AllPlain(SourceLines(b))
    {
      SummaryIsPlain(b);
      ContractsArePlain(b);
      ModulesArePlain(b);
      SourcesArePlain(b);
    }
    FlatIsPlain(SummaryLines, d.behaviors);
    FlatIsPlain(ContractLines, d.behaviors);
    FlatIsPlain(ModuleLines, d.behaviors);
    FlatIsPlain(SourceLines, d.behaviors);
  }

  // ---- lines and the text ----

  /** The lines of a text; a final newline ends the last line and leaves an empty one. */
  function Split(s: string): (lines: seq<string>)
    ensures lines != []
  {
    if s == "" then [""]
    else
      var rest := Split(s[1..]);
      if s[0] == '\n' then [""] + rest else [[s[0]] + rest[0]] + rest[1..]
  }

  lemma {:induction false} SplitFirst(line: string, rest: string)
    requires '\n' !in line
    ensures Split(line + ("\n" + rest)) == [line] + Split(rest)
  {
    if line == "" {
      assert line + ("\n" + rest) == "\n" + rest;
      assert ("\n" + rest)[1..] == rest;
    } else {
      SplitFirst(line[1..], rest);
      assert (line + ("\n" + rest))[1..] == line[1..] + ("\n" + rest);
      assert [line[0]] + line[1..] == line;
    }
  }

  lemma {:induction false} SplitOne(line: string)
    requires '\n' !in line
    ensures Split(line) == [line]
  {
    if line != "" {
      SplitOne(line[1..]);
      assert [line[0]] + line[1..] == line;
    }
  }

  lemma {:induction false} SplitJoin(texts: seq<string>)
    requires texts != [] && forall t :: t in texts ==> '\n' !in t
    ensures Split(Join(texts)) == texts
  {
    if |texts| == 1 {
      SplitOne(texts[0]);
    } else {
      SplitJoin(texts[1..]);
      SplitFirst(texts[0], Join(texts[1..]));
      assert [texts[0]] + texts[1..] == texts;
    }
  }

  lemma {:induction false} EscapeOneLine(value: string)
    requires '\n' !in value
    ensures '\n' !in EscapeText(value)
  {
    if value != "" {
      EscapeOneLine(value[1..]);
    }
  }

  lemma PieceOneLine(p: Piece)
    requires OneLine(p)
    ensures '\n' !in RenderPiece(p)
  {
    match p
    case Literal(text) =>
    case Span(value) =>
      NoNewline(value);
      SpanOneLine(value);
    case Escaped(value) =>
      NoNewline(value);
      EscapeOneLine(value);
  }

  lemma NoNewline(value: string)
    requires Text(value)
    ensures '\n' !in value
  {
    assert IsLineEnding('\n');
  }

  lemma SpanOneLine(value: string)
    requires '\n' !in value
    ensures '\n' !in CodeSpanText(value)
  {
    hide Runs, Longest, TouchesEdge;
  }

  lemma {:induction false} RenderOneLine(line: Line)
    requires forall p :: p in line ==> OneLine(p)
    ensures '\n' !in Render(line)
  {
    if line != [] {
      PieceOneLine(line[0]);
      RenderOneLine(line[1..]);
    }
  }

  // ---- the end of the text ----

  lemma {:induction false} JoinSnoc(texts: seq<string>, last: string)
    requires texts != []
    ensures Join(texts + [last]) == Join(texts) + ("\n" + last)
  {
    if |texts| == 1 {
      assert (texts + [last])[1..] == [last];
    } else {
      JoinSnoc(texts[1..], last);
      assert (texts + [last])[1..] == texts[1..] + [last];
      assert texts[0] + ("\n" + (Join(texts[1..]) + ("\n" + last))) == (texts[0] + ("\n" + Join(texts[1..]))) + ("\n" + last);
    }
  }

  lemma {:induction false} JoinEnds(texts: seq<string>, line: string)
    requires line != ""
    ensures
      var all := Join(texts + [line]);
      all != "" && all[|all| - 1] == line[|line| - 1]
  {
    hide Join;
    if texts == [] {
      assert texts + [line] == [line];
      JoinOne(line);
    } else {
      JoinSnoc(texts, line);
    }
  }

  lemma JoinOne(line: string)
    ensures Join([line]) == line
  {}

  lemma NewlineStripped(all: string)
    requires all != "" && !IsSpace(all[|all| - 1])
    ensures RightStripped(all + "\n") == all
  {
    NewlineIsSpace();
    assert (all + "\n")[..|all|] == all;
  }

  /** Nothing but the final newline is stripped from a text whose last line is empty and comes
      after a line that ends in no space. */
  lemma StrippedAndEnded(texts: seq<string>, line: string)
    requires line != "" && !IsSpace(line[|line| - 1])
    ensures RightStripped(Join(texts + [line] + [""])) + "\n" == Join(texts + [line] + [""])
  {
    hide IsSpace, Join, RightStripped;
    JoinEnds(texts, line);
    JoinSnoc(texts + [line], "");
    assert "\n" + "" == "\n";
    NewlineStripped(Join(texts + [line]));
  }

  lemma NewlineIsSpace()
    ensures IsSpace('\n') && !IsSpace('`')
  {}

  lemma FlatLast<A, B>(f: A -> seq<B>, xs: seq<A>)
    requires xs != []
    ensures Flat(f, xs) == Flat(f, xs[..|xs| - 1]) + f(xs[|xs| - 1])
  {}

  /** What comes before the last test and the empty line after it. */
  function BeforeLastTest(d: Document): seq<Line>
    requires d.behaviors != [] && Field(d.behaviors[|d.behaviors| - 1], TESTS) != []
  {
    var n := |d.behaviors| - 1;
    var last, tests := d.behaviors[n], Field(d.behaviors[n], TESTS);
    BeforeSources(d) + Flat(SourceLines, d.behaviors[..n]) + ReferenceSection(last) + Flat(SpanBullet, tests[..|tests| - 1])
  }

  function LastTest(d: Document): Line
    requires d.behaviors != [] && Field(d.behaviors[|d.behaviors| - 1], TESTS) != []
  {
    var tests := Field(d.behaviors[|d.behaviors| - 1], TESTS);
    Labelled("- ", tests[|tests| - 1])
  }

  lemma LastLines(d: Document)
    requires d.behaviors != [] && Field(d.behaviors[|d.behaviors| - 1], TESTS) != []
    ensures Lines(d) == BeforeLastTest(d) + [LastTest(d)] + [[]]
  {
    hide BeforeSources, ReferenceSection, Flat, Field, Labelled;
    var last := d.behaviors[|d.behaviors| - 1];
    FlatLast(SourceLines, d.behaviors);
    FlatLast(SpanBullet, Field(last, TESTS));
  }

  lemma SpanEndsInBacktick(prefix: string, value: string)
    ensures
      var text := Render(Labelled(prefix, value));
      text != "" && text[|text| - 1] == '`'
  {
    hide CodeSpanText;
    RenderLabelled(prefix, value);
    CodeSpanEnds(value);
  }

  lemma RenderLabelled(prefix: string, value: string)
    ensures Render(Labelled(prefix, value)) == prefix + CodeSpanText(value)
  {
    hide CodeSpanText;
    var line := Labelled(prefix, value);
    assert line[1..] == [Span(value)] && line[1..][1..] == [];
    assert Render([Span(value)]) == CodeSpanText(value) + Render([]);
  }

  lemma CodeSpanEnds(value: string)
    ensures CodeSpanText(value) != "" && CodeSpanText(value)[|CodeSpanText(value)| - 1] == '`'
  {
    hide Runs, Longest, TouchesEdge;
  }

  lemma TextsOf(front: seq<Line>, line: Line)
    ensures Texts(front + [line] + [[]]) == Texts(front) + [Render(line)] + [""]
  {}

  /** The text is the lines, one by one: stripping removes only the newline that is put back. */
  lemma MarkdownIsLines(d: Document)
    requires d.behaviors != [] && Field(d.behaviors[|d.behaviors| - 1], TESTS) != []
    ensures Markdown(d) == Join(Texts(Lines(d)))
  {
    hide Lines, BeforeLastTest, Join, RightStripped, Render, IsSpace, Field;
    var tests := Field(d.behaviors[|d.behaviors| - 1], TESTS);
    LastLines(d);
    TextsOf(BeforeLastTest(d), LastTest(d));
    SpanEndsInBacktick("- ", tests[|tests| - 1]);
    NewlineIsSpace();
    StrippedAndEnded(Texts(BeforeLastTest(d)), Render(LastTest(d)));
  }

  /** A reader who splits the text into lines and reads each line's inlines gets back every line of
      the handbook, with every displayed value exactly. */
  lemma MarkdownReadsBack(d: Document)
    requires PrintableDocument(d)
    ensures |Split(Markdown(d))| == |Lines(d)|
    ensures forall i :: 0 <= i < |Lines(d)| ==> ReadInline(Split(Markdown(d))[i]) == Meaning(Lines(d)[i])
  {
    hide Lines, Markdown, Join, Split, Render, Text, Field, ReadInline, Meaning, WellFormed, OneLine;
    LinesArePlain(d);
    LastIsPrintable(d);
    MarkdownIsLines(d);
    LastLines(d);
    var lines := Lines(d);
    forall i | 0 <= i < |lines|
      ensures '\n' !in Texts(lines)[i] && ReadInline(Render(lines[i])) == Meaning(lines[i])
    {
      assert Plain(lines[i]);
      RenderOneLine(lines[i]);
      LineReadsBack(lines[i]);
    }
    SplitJoin(Texts(lines));
  }

  lemma LastIsPrintable(d: Document)
    requires PrintableDocument(d)
    ensures d.behaviors != [] && Field(d.behaviors[|d.behaviors| - 1], TESTS) != []
  {
    hide Field;
    assert PrintableEntry(d.behaviors[|d.behaviors| - 1]);
  }

  // ---- built documents are printable ----

  /** What the manifest's text validator guarantees, as far as printing goes: not empty, stripped,
      and on one line. */
  predicate Stripped(value: string)
  {
    && value != "" && value[0] != ' ' && value[|value| - 1] != ' '
    && forall i :: 0 <= i < |value| ==> !IsLineEnding(value[i])
  }

  lemma StrippedIsText(value: string)
    requires Stripped(value)
    ensures Text(value)
  {}

  ghost predicate StrippedEntry(b: Behavior)
  {
    && Stripped(b.id) && Stripped(b.summary) && ListOf(b, TESTS) != []
    && (forall f, v :: v in ListOf(b, f) ==> Stripped(v))
    && (forall x :: x in b.bindings ==> Stripped(x.relativePath) && Stripped(x.symbol) && Stripped(x.sourceHash))
  }

  /** What the manifest models demand of text. */
  ghost predicate StrippedManifest(m: Manifest)
  {
    && Stripped(m.repository) && Stripped(m.commit) && m.behaviors != []
    && forall b :: b in m.behaviors ==> StrippedEntry(b)
  }

  /** What the location model demands of the module name, and what the inspection finds. */
  ghost predicate StrippedTree(tree: Tree, commit: string)
  {
    forall path :: Stripped(path) ==>
      && Stripped(tree.moduleName(path))
      && (tree.blob(commit, path).Some? && tree.blob(commit, path).value.parsed.Symbols? ==>
            forall s :: s in tree.blob(commit, path).value.parsed.facts ==>
              StrippedFact(tree.blob(commit, path).value.parsed.facts[s]))
  }

  predicate StrippedFact(fact: Fact)
  {
    Stripped(fact.kind) && Stripped(fact.hash)
  }

  ghost predicate StrippedHashes(hashes: Hashes)
  {
    && (forall m :: Stripped(hashes.manifest(m)))
    && (forall listing :: Stripped(hashes.tree(listing)))
  }

  lemma FoundIsPrintable(tree: Tree, m: Manifest, commit: string, l: Location)
    requires StrippedManifest(m) && StrippedTree(tree, commit) && Verified(tree, m, commit)
    requires l in Inspected(tree, m, commit).locations
    ensures PrintableLocation(l)
  {
    hide Inspected, Stripped, Text;
    PassingLocatesExactly(tree, m, commit, l);
    var v := ViewOf(tree, m, commit);
    var p :| p in DeclaredBindings(m.behaviors) && Locates(v, p.1, p.0, l);
    var b :| b in m.behaviors && p.0 in b.bindings;
    assert StrippedEntry(b);
    assert StrippedFact(Committed(v, p.0.relativePath).value.parsed.facts[p.0.symbol]);
    StrippedIsText(l.commit);
    StrippedIsText(l.relativePath);
    StrippedIsText(l.moduleName);
    StrippedIsText(l.symbol);
    StrippedIsText(l.kind);
    StrippedIsText(l.sourceHash);
    StrippedIsText(l.symbolHash);
  }

  lemma FieldsArePrintable(locations: seq<Location>, b: Behavior, field: string)
    requires StrippedEntry(b)
    ensures AllText(Field(RenderBehavior(locations, b), field))
    ensures Field(RenderBehavior(locations, b), field) == Sort(StringLeq, ListOf(b, field))
  {
    hide Stripped, Text, Filter, Sort;
    SortMembers(StringLeq, ListOf(b, field));
    SortOfNothing();
    forall v | v in Field(RenderBehavior(locations, b), field)
      ensures Text(v)
    {
      StrippedIsText(v);
    }
  }

  lemma RenderedIsPrintable(locations: seq<Location>, b: Behavior)
    requires StrippedEntry(b) && forall l :: l in locations ==> PrintableLocation(l)
    ensures PrintableEntry(RenderBehavior(locations, b))
  {
    hide Stripped, Text, Filter, Sort, PrintableLocation, Field, AllText;
    FieldsArePrintable(locations, b, CONTRACTS);
    FieldsArePrintable(locations, b, DEPENDENCIES);
    FieldsArePrintable(locations, b, RULES);
    FieldsArePrintable(locations, b, TESTS);
    SortKeeps(StringLeq, ListOf(b, TESTS));
    assert |multiset(Sort(StringLeq, ListOf(b, TESTS)))| == |ListOf(b, TESTS)|;
    StrippedIsText(b.id);
    StrippedIsText(b.summary);
    SortMembers(LocationLeq, Filter(OfBehavior(b.id), locations));
    FilterMembers(OfBehavior(b.id), locations);
  }

  /** Every document that a build makes of a valid manifest is printable. */
  lemma BuiltIsPrintable(tree: Tree, hashes: Hashes, m: Manifest, commit: string, r: Build)
    requires StrippedManifest(m) && StrippedTree(tree, commit) && StrippedHashes(hashes)
    requires IsBuild(tree, hashes, m, commit, r) && r.Built?
    ensures PrintableDocument(r.document)
  {
    hide Inspected, Verified, Contained, IsInverse, Stripped, Text, Lists, RenderBehavior, PrintableEntry, StrippedEntry, Canonical, StrippedTree;
    var d, locations, sorted := r.document, Inspected(tree, m, commit).locations, Sort(BehaviorLeq, m.behaviors);
    BuildSucceedsExactly(tree, hashes, m, commit, r);
    StrippedIsText(d.repository);
    StrippedIsText(d.commit);
    StrippedIsText(d.manifestHash);
    StrippedIsText(d.treeHash);
    SortMembers(BehaviorLeq, m.behaviors);
    SortKeeps(BehaviorLeq, m.behaviors);
    assert |multiset(sorted)| == |m.behaviors|;
    forall l | l in locations
      ensures PrintableLocation(l)
    {
      FoundIsPrintable(tree, m, commit, l);
    }
    forall i | 0 <= i < |sorted|
      ensures PrintableEntry(d.behaviors[i])
    {
      assert sorted[i] in m.behaviors;
      RenderedIsPrintable(locations, sorted[i]);
    }
  }

  // ---- the text identifies the manifest ----

  lemma LabelledMeaning(prefix: string, value: string)
    ensures Meaning(Labelled(prefix, value)) == Characters(prefix) + [Code(value)]
  {
    var line := Labelled(prefix, value);
    assert line[1..] == [Span(value)] && line[1..][1..] == [];
    assert Meaning([Span(value)]) == [Code(value)] + Meaning([]);
  }

  lemma SameLabel(prefix: string, v1: string, v2: string)
    requires Meaning(Labelled(prefix, v1)) == Meaning(Labelled(prefix, v2))
    ensures v1 == v2
  {
    LabelledMeaning(prefix, v1);
    LabelledMeaning(prefix, v2);
    assert (Characters(prefix) + [Code(v1)])[|prefix|] == Code(v1);
    assert (Characters(prefix) + [Code(v2)])[|prefix|] == Code(v2);
  }

  lemma HeaderComesFirst(d: Document)
    ensures |Lines(d)| >= |Header(d)| == 10
    ensures forall i :: 0 <= i < 10 ==> Lines(d)[i] == Header(d)[i]
  {
    hide Header, Titled, Flat, SummaryLines, ContractLines, ModuleLines, SourceLines;
    HeaderLength(d);
  }

  lemma HeaderLength(d: Document)
    ensures |Header(d)| == 10
    ensures Header(d)[5] == Labelled("- Repository: ", d.repository)
    ensures Header(d)[6] == Labelled("- Repository " + "commit: ", d.commit)
    ensures Header(d)[7] == Labelled("- Manifest " + SHA, d.manifestHash)
    ensures Header(d)[8] == Labelled("- Source-tree " + SHA, d.treeHash)
  {
    hide Labelled;
  }

  /** Two printed handbooks with the same text name the same repository, commit and hashes. */
  lemma SameTextSameHeader(d1: Document, d2: Document)
    requires PrintableDocument(d1) && PrintableDocument(d2) && Markdown(d1) == Markdown(d2)
    ensures d1.repository == d2.repository && d1.commit == d2.commit
    ensures d1.manifestHash == d2.manifestHash && d1.treeHash == d2.treeHash
  {
    hide *;
    MarkdownReadsBack(d1);
    MarkdownReadsBack(d2);
    HeaderComesFirst(d1);
    HeaderComesFirst(d2);
    HeaderLength(d1);
    HeaderLength(d2);
    SameLine(d1, d2, 5);
    SameLine(d1, d2, 6);
    SameLine(d1, d2, 7);
    SameLine(d1, d2, 8);
    SameLabel("- Repository: ", d1.repository, d2.repository);
    SameLabel("- Repository " + "commit: ", d1.commit, d2.commit);
    SameLabel("- Manifest " + SHA, d1.manifestHash, d2.manifestHash);
    SameLabel("- Source-tree " + SHA, d1.treeHash, d2.treeHash);
  }

  lemma SameLine(d1: Document, d2: Document, i: nat)
    requires PrintableDocument(d1) && PrintableDocument(d2) && Markdown(d1) == Markdown(d2)
    requires i < |Lines(d1)| && i < |Lines(d2)|
    ensures Meaning(Lines(d1)[i]) == Meaning(Lines(d2)[i])
  {
    hide *;
    MarkdownReadsBack(d1);
    MarkdownReadsBack(d2);
  }

  /** When no two payloads share a hash, two handbooks with the same Markdown come from
      rearrangements of one manifest, and so from the same repository they are one build. */
  lemma MarkdownIdentifiesManifest(tree: Tree, hashes: Hashes, m1: Manifest, m2: Manifest, commit: string, r1: Build, r2: Build)
    requires Coherent(m1) && Coherent(m2) && StrippedManifest(m1) && StrippedManifest(m2)
    requires StrippedTree(tree, commit) && StrippedHashes(hashes)
    requires forall a, b :: hashes.manifest(a) == hashes.manifest(b) ==> a == b
    requires IsBuild(tree, hashes, m1, commit, r1) && IsBuild(tree, hashes, m2, commit, r2) && r1.Built? && r2.Built?
    ensures Markdown(r1.document) == Markdown(r2.document) <==> Rearranged(m1, m2)
    ensures Rearranged(m1, m2) ==> r1 == r2
  {
    hide Coherent, StrippedManifest, StrippedTree, StrippedHashes, Rearranged, Inspected, Contained, Markdown, Canonical, PrintableDocument;
    if Rearranged(m1, m2) {
      RenderingForgetsOrder(tree, hashes, m1, m2, commit, r1, r2);
    }
    if Markdown(r1.document) == Markdown(r2.document) {
      BuiltIsPrintable(tree, hashes, m1, commit, r1);
      BuiltIsPrintable(tree, hashes, m2, commit, r2);
      SameTextSameHeader(r1.document, r2.document);
      CanonicalExactly(m1, m2);
    }
  }
}
