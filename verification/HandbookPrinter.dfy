/** Printing handbook values as Markdown inlines, and the reader that must undo it: code spans
    by section 6.1 and backslash escapes by section 2.4 of CommonMark 0.31.2. */
module HandbookPrinter {
  import opened Common

  // ---- the printer ----

  /** The ASCII punctuation characters, which are the ones a backslash can escape. */
  predicate IsPunctuation(c: char)
  {
    '!' <= c <= '/' || ':' <= c <= '@' || '[' <= c <= '`' || '{' <= c <= '~'
  }

  /** They are the graphic ASCII characters other than letters and digits. */
  lemma PunctuationExactly(c: char)
    ensures IsPunctuation(c) <==> '!' <= c <= '~' && !('0' <= c <= '9') && !('A' <= c <= 'Z') && !('a' <= c <= 'z')
  {}

  function Repeat(c: char, n: nat): string
  {
    seq(n, _ => c)
  }

  /** The length of the run of backticks at the front. */
  function RunLength(s: string): (n: nat)
    ensures n <= |s|
    ensures s[..n] == Repeat('`', n)
    ensures n < |s| ==> s[n] != '`'
  {
    if s == "" || s[0] != '`' then 0 else 1 + RunLength(s[1..])
  }

  /** The maximal backtick runs, left to right. */
  function Runs(s: string): seq<string>
    decreases |s|
  {
    if s == "" then []
    else if s[0] != '`' then Runs(s[1..])
    else [s[..RunLength(s)]] + Runs(s[RunLength(s)..])
  }

  function Longest(runs: seq<string>): (n: nat)
    ensures forall i :: 0 <= i < |runs| ==> |runs[i]| <= n
  {
    if runs == [] then 0
    else
      var rest := Longest(runs[1..]);
      assert forall i :: 0 < i < |runs| ==> runs[i] == runs[1..][i - 1];
      if |runs[0]| > rest then |runs[0]| else rest
  }

  /** The accumulator loop of `_backtick_runs`. */
  method BacktickRuns(value: string) returns (runs: seq<string>)
    ensures runs == if Runs(value) == [] then [""] else Runs(value)
  {
    hide Runs;
    var retained: seq<string> := [];
    var current := "";
    assert current + value[0..] == value;
    for i := 0 to |value|
      invariant current == Repeat('`', |current|)
      invariant Runs(value) == retained + Runs(current + value[i..])
      invariant retained == [] || retained[0] != ""
    {
      var character := value[i];
      assert value[i..] == [character] + value[i + 1..];
      if character == '`' {
        assert (current + [character]) + value[i + 1..] == current + value[i..];
        current := current + [character];
      } else if current != "" {
        RunsAfterRun(current, value[i..]);
        RunsSkip(value[i..]);
        retained := retained + [current];
        current := "";
        assert "" + value[i + 1..] == value[i + 1..];
      } else {
        RunsSkip(value[i..]);
        assert current + value[i..] == value[i..];
        assert "" + value[i + 1..] == value[i + 1..];
      }
    }
    assert current + value[|value|..] == current;
    if current != "" {
      assert current + "" == current;
      RunsAfterRun(current, "");
      retained := retained + [current];
    }
    RunsOfNothing();
    return if retained == [] then [""] else retained;
  }

  lemma RunsSkip(s: string)
    requires s != "" && s[0] != '`'
    ensures Runs(s) == Runs(s[1..])
  {}

  lemma RunsOfNothing()
    ensures Runs("") == []
  {}

  lemma {:induction false} RunLengthOfRun(n: nat, rest: string)
    requires rest == "" || rest[0] != '`'
    ensures RunLength(Repeat('`', n) + rest) == n
  {
    if n > 0 {
      RunLengthOfRun(n - 1, rest);
      assert (Repeat('`', n) + rest)[1..] == Repeat('`', n - 1) + rest;
    } else {
      assert Repeat('`', 0) + rest == rest;
    }
  }

  lemma RunsAfterRun(run: string, rest: string)
    requires run != "" && run == Repeat('`', |run|)
    requires rest == "" || rest[0] != '`'
    ensures Runs(run + rest) == [run] + Runs(rest)
  {
    RunLengthOfRun(|run|, rest);
    assert (run + rest)[..|run|] == run && (run + rest)[|run|..] == rest;
  }

  predicate TouchesEdge(value: string)
  {
    value != "" && (value[0] in {'`', ' '} || value[|value| - 1] in {'`', ' '})
  }

  function Padding(value: string): string
  {
    if TouchesEdge(value) then " " else ""
  }

  function Delimiter(value: string): string
  {
    Repeat('`', Longest(Runs(value)) + 1)
  }

  function CodeSpanText(value: string): string
  {
    Delimiter(value) + (Padding(value) + value + Padding(value)) + Delimiter(value)
  }

  method LongestOf(runs: seq<string>) returns (longest: nat)
    ensures longest == Longest(runs)
  {
    longest := 0;
    for i := 0 to |runs|
      invariant longest == Longest(runs[..i])
    {
      LongestSnoc(runs[..i], runs[i]);
      assert runs[..i + 1] == runs[..i] + [runs[i]];
      longest := if |runs[i]| > longest then |runs[i]| else longest;
    }
    assert runs[..|runs|] == runs;
  }

  method CodeSpan(value: string) returns (text: string)
    ensures text == CodeSpanText(value)
  {
    hide Runs, Repeat, TouchesEdge;
    var runs := BacktickRuns(value);
    var longest := LongestOf(runs);
    assert Longest([""]) == Longest([]) == 0;
    var delimiter := Repeat('`', longest + 1);
    var padding := Padding(value);
    text := delimiter + (padding + value + padding) + delimiter;
  }

  lemma {:induction false} LongestSnoc(runs: seq<string>, last: string)
    ensures Longest(runs + [last]) == if |last| > Longest(runs) then |last| else Longest(runs)
  {
    if runs != [] {
      LongestSnoc(runs[1..], last);
      assert (runs + [last])[1..] == runs[1..] + [last];
    }
  }

  // ---- the printed shape ----

  /** k backticks in a row from position i on. */
  predicate RunAt(s: string, i: nat, k: nat)
  {
    i + k <= |s| && forall j :: i <= j < i + k ==> s[j] == '`'
  }

  ghost predicate HasRun(s: string, k: nat)
  {
    exists i: nat :: RunAt(s, i, k)
  }

  lemma HasRunLater(s: string, n: nat, k: nat)
    requires n <= |s| && HasRun(s[n..], k)
    ensures HasRun(s, k)
  {
    var i: nat :| RunAt(s[n..], i, k);
    assert forall j :: n + i <= j < n + i + k ==> s[j] == s[n..][j - n];
    assert RunAt(s, n + i, k);
  }

  /** A run that does not start in the maximal run at the front starts after it. */
  lemma RunAfterFront(s: string, k: nat)
    requires s != "" && k > 0 && HasRun(s, k) && (s[0] == '`' ==> k > RunLength(s))
    ensures
      var n := if s[0] == '`' then RunLength(s) else 1;
      n <= |s| && HasRun(s[n..], k)
  {
    hide RunLength;
    var n := if s[0] == '`' then RunLength(s) else 1;
    var i: nat :| RunAt(s, i, k);
    assert n <= i;
    assert RunAt(s[n..], i - n, k);
  }

  /** The longest run, by what occurs in the text. */
  lemma {:induction false} LongestExactly(s: string, k: nat)
    ensures k > 0 ==> (Longest(Runs(s)) >= k <==> HasRun(s, k))
    decreases |s|
  {
    hide RunLength;
    if k > 0 && s != "" {
      if s[0] != '`' {
        RunsSkip(s);
        LongestExactly(s[1..], k);
        if HasRun(s, k) {
          RunAfterFront(s, k);
        }
        if HasRun(s[1..], k) {
          HasRunLater(s, 1, k);
        }
      } else {
        var n := RunLength(s);
        RunStarted(s);
        LongestExactly(s[n..], k);
        if k <= n {
          FrontHasRun(s, k);
        } else {
          if HasRun(s, k) {
            RunAfterFront(s, k);
          }
          if HasRun(s[n..], k) {
            HasRunLater(s, n, k);
          }
        }
      }
    }
  }

  lemma RunStarted(s: string)
    requires s != "" && s[0] == '`'
    ensures 0 < RunLength(s) <= |s|
    ensures Longest(Runs(s)) == if RunLength(s) > Longest(Runs(s[RunLength(s)..])) then RunLength(s) else Longest(Runs(s[RunLength(s)..]))
  {
    var n := RunLength(s);
    assert Runs(s) == [s[..n]] + Runs(s[n..]);
  }

  lemma FrontHasRun(s: string, k: nat)
    requires k <= RunLength(s)
    ensures HasRun(s, k)
  {
    assert s[..RunLength(s)] == Repeat('`', RunLength(s));
    forall j | 0 <= j < k
      ensures s[j] == '`'
    {
      assert s[j] == s[..RunLength(s)][j];
    }
    assert RunAt(s, 0, k);
  }

  /** The value stands between two fences, one backtick longer than the longest run in it, with a space on
      both sides exactly when it begins or ends with a backtick or a space. */
  lemma SpanShape(value: string)
    ensures exists n: nat :: IsFence(value, n) && CodeSpanText(value) == Fenced(value, n)
  {
    hide Runs, Repeat, HasRun, Longest;
    var n := Longest(Runs(value)) + 1;
    LongestExactly(value, n);
    LongestExactly(value, n - 1);
    assert "" + value + "" == value;
    assert CodeSpanText(value) == Fenced(value, n);
  }

  function Fenced(value: string, n: nat): string
  {
    Repeat('`', n) + (if BeginsOrEnds(value) then " " + value + " " else value) + Repeat('`', n)
  }

  ghost predicate IsFence(value: string, n: nat)
  {
    n > 0 && (n > 1 ==> HasRun(value, n - 1)) && !HasRun(value, n)
  }

  predicate BeginsOrEnds(value: string)
  {
    |value| > 0 && (value[0] == '`' || value[0] == ' ' || value[|value| - 1] == '`' || value[|value| - 1] == ' ')
  }

  function EscapeText(value: string): string
  {
    if value == "" then ""
    else (if IsPunctuation(value[0]) then ['\\', value[0]] else [value[0]]) + EscapeText(value[1..])
  }

  // ---- the reader ----

  datatype Token = Character(c: char) | Code(content: string)

  /** Section 6.1: the closer is the first later backtick string of exactly the same length. */
  function FindCloser(s: string, n: nat): (p: Option<nat>)
    decreases |s|
    ensures p.Some? ==> p.value + n <= |s|
  {
    if s == "" then None
    else if s[0] != '`' then Shift(FindCloser(s[1..], n), 1)
    else if RunLength(s) == n then Some(0)
    else Shift(FindCloser(s[RunLength(s)..], n), RunLength(s))
  }

  function Shift(p: Option<nat>, distance: nat): Option<nat>
  {
    if p.Some? then Some(p.value + distance) else None
  }

  predicate IsLineEnding(c: char)
  {
    c == '\n' || c == '\r'
  }

  /** Section 6.1: line endings become spaces. */
  function EndingsToSpaces(s: string): string
    decreases |s|
  {
    if s == "" then ""
    else if |s| >= 2 && s[0] == '\r' && s[1] == '\n' then " " + EndingsToSpaces(s[2..])
    else [if IsLineEnding(s[0]) then ' ' else s[0]] + EndingsToSpaces(s[1..])
  }

  predicate AllSpaces(s: string)
  {
    forall i :: 0 <= i < |s| ==> s[i] == ' '
  }

  /** Section 6.1: one space is stripped from both sides when both are there, unless the
      content is nothing but spaces. */
  function SpanContent(raw: string): string
  {
    var s := EndingsToSpaces(raw);
    if |s| >= 2 && s[0] == ' ' && s[|s| - 1] == ' ' && !AllSpaces(s) then s[1..|s| - 1] else s
  }

  function Characters(s: string): seq<Token>
  {
    seq(|s|, i requires 0 <= i < |s| => Character(s[i]))
  }

  /** The tokens at the front and how many characters they take. Code spans bind tighter than
      everything else, and a backslash escapes exactly the ASCII punctuation characters. */
  function Front(s: string): (r: (seq<Token>, nat))
    requires s != ""
    ensures 0 < r.1 <= |s|
  {
    if s[0] == '\\' && |s| >= 2 && IsPunctuation(s[1]) then ([Character(s[1])], 2)
    else if s[0] == '`' then
      var n := RunLength(s);
      var closer := FindCloser(s[n..], n);
      if closer.Some? then ([Code(SpanContent(s[n..n + closer.value]))], n + closer.value + n)
      else (Characters(s[..n]), n)
    else ([Character(s[0])], 1)
  }

  function ReadInline(s: string): seq<Token>
    decreases |s|
  {
    if s == "" then [] else Front(s).0 + ReadInline(s[Front(s).1..])
  }

  // ---- code spans read back ----

  predicate NoBacktickFirst(s: string)
  {
    s == "" || s[0] != '`'
  }

  lemma RunsStart(s: string)
    requires s != "" && s[0] == '`'
    ensures 0 < RunLength(s) <= |s| && Runs(s) == [s[..RunLength(s)]] + Runs(s[RunLength(s)..])
  {}

  lemma FindCloserStep(s: string, n: nat)
    requires s != ""
    ensures s[0] != '`' ==> FindCloser(s, n) == Shift(FindCloser(s[1..], n), 1)
    ensures s[0] == '`' && RunLength(s) == n ==> FindCloser(s, n) == Some(0)
    ensures s[0] == '`' && RunLength(s) != n ==> FindCloser(s, n) == Shift(FindCloser(s[RunLength(s)..], n), RunLength(s))
  {
    hide RunLength;
  }

  lemma RunStopsShort(s: string)
    requires s != "" && s[|s| - 1] != '`'
    ensures RunLength(s) < |s|
  {
    assert s[..RunLength(s)] == Repeat('`', RunLength(s));
  }

  lemma CloserAtOnce(n: nat, rest: string)
    requires n > 0 && NoBacktickFirst(rest)
    ensures FindCloser(Repeat('`', n) + rest, n) == Some(0)
  {
    hide FindCloser, RunLength;
    var s := Repeat('`', n) + rest;
    assert s[0] == '`';
    RunLengthOfRun(n, rest);
    FindCloserStep(s, n);
  }

  lemma RunStarts(body: string, n: nat)
    requires body != "" && body[0] == '`' && body[|body| - 1] != '`' && n > Longest(Runs(body))
    ensures 0 < RunLength(body) < |body| && RunLength(body) < n && n > Longest(Runs(body[RunLength(body)..]))
  {
    hide Runs, RunLength, Longest;
    RunStopsShort(body);
    RunsStart(body);
    LongestOfRest(body[..RunLength(body)], Runs(body[RunLength(body)..]));
  }

  /** In text whose backtick runs are all shorter than n and that does not end in a backtick,
      the first string of n backticks is the one that follows the text. */
  lemma {:induction false} CloserAfter(body: string, n: nat, rest: string)
    requires n > Longest(Runs(body))
    requires body == "" || body[|body| - 1] != '`'
    requires NoBacktickFirst(rest)
    ensures FindCloser(body + (Repeat('`', n) + rest), n) == Some(|body|)
    decreases |body|
  {
    hide FindCloser, Runs, RunLength, Longest, NoBacktickFirst, Repeat;
    var tail := Repeat('`', n) + rest;
    var s := body + tail;
    if body == "" {
      assert s == tail;
      CloserAtOnce(n, rest);
    } else if body[0] != '`' {
      FindCloserStep(s, n);
      RunsSkip(body);
      CloserAfter(body[1..], n, rest);
      assert s[1..] == body[1..] + tail;
    } else {
      var k := RunLength(body);
      FindCloserStep(s, n);
      RunStarts(body, n);
      RunLengthPrefix(body, tail);
      CloserAfter(body[k..], n, rest);
      assert s[k..] == body[k..] + tail;
    }
  }

  lemma LongestOfRest(run: string, runs: seq<string>)
    ensures Longest([run] + runs) >= |run| && Longest([run] + runs) >= Longest(runs)
  {}

  lemma {:induction false} RunLengthPrefix(s: string, more: string)
    requires RunLength(s) < |s|
    ensures RunLength(s + more) == RunLength(s)
    decreases |s|
  {
    if s[0] == '`' {
      RunLengthPrefix(s[1..], more);
      assert (s + more)[1..] == s[1..] + more;
    }
  }

  lemma {:induction false} RunsOfPadded(value: string)
    ensures Longest(Runs(value + " ")) == Longest(Runs(value))
    ensures Runs(" " + value) == Runs(value)
    decreases |value|
  {
    assert (" " + value)[1..] == value;
    RunsSpaceSuffix(value);
  }

  lemma {:induction false} RunsSpaceSuffix(value: string)
    ensures Runs(value + " ") == Runs(value)
    decreases |value|
  {
    if value == "" {
      assert value + " " == " " && " "[1..] == "";
    } else if value[0] != '`' {
      RunsSpaceSuffix(value[1..]);
      assert (value + " ")[1..] == value[1..] + " ";
    } else {
      var k := RunLength(value);
      if k < |value| {
        RunLengthPrefix(value, " ");
      } else {
        assert value == Repeat('`', k);
        RunLengthOfRun(k, " ");
      }
      assert (value + " ")[..k] == value[..k] && (value + " ")[k..] == value[k..] + " ";
      RunsSpaceSuffix(value[k..]);
    }
  }

  lemma PaddedBody(value: string)
    requires value != ""
    ensures
      var body := Padding(value) + value + Padding(value);
      && Longest(Runs(body)) == Longest(Runs(value))
      && body[0] != '`' && body[|body| - 1] != '`'
  {
    if TouchesEdge(value) {
      RunsOfPadded(" " + value);
      RunsOfPadded(value);
      assert Padding(value) + value + Padding(value) == (" " + value) + " ";
    } else {
      assert Padding(value) + value + Padding(value) == value;
    }
  }

  lemma FrontClosed(s: string, n: nat, p: nat)
    requires s != "" && s[0] == '`' && RunLength(s) == n
    requires FindCloser(s[n..], n) == Some(p)
    ensures Front(s) == ([Code(SpanContent(s[n..n + p]))], n + p + n)
  {}

  lemma ReadUnfolds(s: string, tokens: seq<Token>, taken: nat)
    requires s != "" && Front(s) == (tokens, taken)
    ensures taken <= |s| && ReadInline(s) == tokens + ReadInline(s[taken..])
  {}

  /** One unfolding of the reader at a backtick run that is closed. */
  lemma ReadClosed(s: string, n: nat, p: nat)
    requires s != "" && s[0] == '`' && RunLength(s) == n
    requires FindCloser(s[n..], n) == Some(p)
    ensures ReadInline(s) == [Code(SpanContent(s[n..n + p]))] + ReadInline(s[n + p + n..])
  {
    hide Front, ReadInline, SpanContent;
    FrontClosed(s, n, p);
    ReadUnfolds(s, [Code(SpanContent(s[n..n + p]))], n + p + n);
  }

  lemma FenceSlices(fence: string, body: string, rest: string)
    ensures
      var s := fence + (body + (fence + rest));
      && s[|fence|..] == body + (fence + rest)
      && s[|fence|..|fence| + |body|] == body
      && s[|fence| + |body| + |fence|..] == rest
  {}

  lemma FencedRun(n: nat, body: string, rest: string)
    requires n > 0 && body != "" && body[0] != '`'
    ensures
      var s := Repeat('`', n) + (body + (Repeat('`', n) + rest));
      s != "" && s[0] == '`' && RunLength(s) == n
  {
    var inner := body + (Repeat('`', n) + rest);
    assert inner[0] == body[0];
    RunLengthOfRun(n, inner);
  }

  /** A printed span, whatever follows it, is read as one code token holding what section 6.1
      makes of the padded value. */
  lemma SpanToken(value: string, rest: string)
    requires value != "" && NoBacktickFirst(rest)
    ensures ReadInline(CodeSpanText(value) + rest)
         == [Code(SpanContent(Padding(value) + value + Padding(value)))] + ReadInline(rest)
  {
    hide ReadInline, FindCloser, RunLength, SpanContent, Padding;
    var body := Padding(value) + value + Padding(value);
    var fence := Delimiter(value);
    var s := fence + (body + (fence + rest));
    assert CodeSpanText(value) + rest == s by {
      Reassociate(fence, body, rest);
    }
    assert FindCloser(body + (fence + rest), |fence|) == Some(|body|) && s != "" && s[0] == '`' && RunLength(s) == |fence| by {
      PaddedBody(value);
      CloserAfter(body, |fence|, rest);
      FencedRun(|fence|, body, rest);
    }
    FenceSlices(fence, body, rest);
    ReadClosed(s, |fence|, |body|);
  }

  lemma Reassociate(fence: string, body: string, rest: string)
    ensures (fence + body + fence) + rest == fence + (body + (fence + rest))
  {}

  lemma {:induction false} EndingsKept(s: string)
    ensures (forall i :: 0 <= i < |s| ==> !IsLineEnding(s[i])) ==> EndingsToSpaces(s) == s
    ensures forall i :: 0 <= i < |EndingsToSpaces(s)| ==> !IsLineEnding(EndingsToSpaces(s)[i])
    decreases |s|
  {
    if s != "" {
      EndingsKept(s[1..]);
      if |s| >= 2 {
        EndingsKept(s[2..]);
      }
      if forall i :: 0 <= i < |s| ==> !IsLineEnding(s[i]) {
        assert EndingsToSpaces(s) == [s[0]] + s[1..];
      }
    }
  }

  /** What the printer can carry: a value with a character that is not a space, on one line. */
  predicate Printable(value: string)
  {
    !AllSpaces(value) && forall i :: 0 <= i < |value| ==> !IsLineEnding(value[i])
  }

  lemma PrintableContent(value: string)
    requires value != ""
    ensures SpanContent(Padding(value) + value + Padding(value)) == value <==> Printable(value)
  {
    var body := Padding(value) + value + Padding(value);
    EndingsKept(body);
    var s := EndingsToSpaces(body);
    if Printable(value) {
      assert s == body;
      if TouchesEdge(value) {
        assert body == " " + value + " ";
        var i :| 0 <= i < |value| && value[i] != ' ';
        assert body[i + 1] != ' ';
        assert body[1..|body| - 1] == value;
      } else {
        assert body == value;
      }
    } else if AllSpaces(value) {
      assert body == " " + value + " ";
      assert forall i :: 0 <= i < |body| ==> !IsLineEnding(body[i]);
      assert AllSpaces(body);
    } else {
      var i :| 0 <= i < |value| && IsLineEnding(value[i]);
      var content := SpanContent(body);
      assert forall k :: 0 <= k < |content| ==> !IsLineEnding(content[k]);
    }
  }

  lemma EmptySpanIsNoSpan(rest: string)
    requires NoBacktickFirst(rest)
    ensures ReadInline(CodeSpanText("") + rest) != [Code("")] + ReadInline(rest)
  {
    var s := CodeSpanText("") + rest;
    assert Delimiter("") == "`";
    assert s == Repeat('`', 2) + rest;
    RunLengthOfRun(2, rest);
    assert s[2..] == rest;
    var closer := FindCloser(rest, 2);
    if closer.Some? {
      assert closer.value > 0;
      var raw := rest[..closer.value];
      assert s[2..2 + closer.value] == raw;
      ContentNonempty(raw);
      assert ReadInline(s)[0] == Code(SpanContent(raw));
      assert ([Code("")] + ReadInline(rest))[0] == Code("");
    } else {
      assert ReadInline(s)[0] == Characters(s[..2])[0] == Character('`');
      assert ([Code("")] + ReadInline(rest))[0] == Code("");
    }
  }

  lemma ContentNonempty(raw: string)
    requires raw != ""
    ensures SpanContent(raw) != ""
  {}

  /** Reading a printed span closes at the intended delimiter and gives back exactly the value,
      padding included, exactly when the value is one line with something other than spaces.
      The rule covers every string, and every continuation that does not start a backtick. */
  lemma CodeSpanReadsBack(value: string, rest: string)
    requires NoBacktickFirst(rest)
    ensures ReadInline(CodeSpanText(value) + rest) == [Code(value)] + ReadInline(rest)
       <==> value != "" && Printable(value)
  {
    if value == "" {
      EmptySpanIsNoSpan(rest);
    } else {
      SpanToken(value, rest);
      PrintableContent(value);
      var got := [Code(SpanContent(Padding(value) + value + Padding(value)))] + ReadInline(rest);
      assert got[0] == Code(SpanContent(Padding(value) + value + Padding(value)));
      assert ([Code(value)] + ReadInline(rest))[0] == Code(value);
    }
  }

  /** The two character rules, for any reader. Proofs by these rules alone never look inside it. */
  ghost predicate ReadsCharacters(read: string -> seq<Token>)
  {
    && (forall c, rest :: c != '`' && c != '\\' ==> read([c] + rest) == [Character(c)] + read(rest))
    && (forall c, rest :: IsPunctuation(c) ==> read(['\\', c] + rest) == [Character(c)] + read(rest))
  }

  lemma InlineReadsCharacters()
    ensures ReadsCharacters(ReadInline)
  {}

  lemma {:induction false} EscapeByRules(read: string -> seq<Token>, value: string, rest: string)
    requires ReadsCharacters(read)
    ensures read(EscapeText(value) + rest) == Characters(value) + read(rest)
  {
    if value == "" {
      assert EscapeText(value) + rest == rest;
      assert Characters(value) + read(rest) == read(rest);
    } else {
      var c := value[0];
      var tail := EscapeText(value[1..]) + rest;
      EscapeByRules(read, value[1..], rest);
      assert Characters(value) + read(rest) == [Character(c)] + (Characters(value[1..]) + read(rest));
      if IsPunctuation(c) {
        assert EscapeText(value) + rest == ['\\', c] + tail;
      } else {
        assert EscapeText(value) + rest == [c] + tail;
      }
    }
  }

  lemma {:induction false} LiteralByRules(read: string -> seq<Token>, text: string, rest: string)
    requires ReadsCharacters(read)
    requires '`' !in text && '\\' !in text
    ensures read(text + rest) == Characters(text) + read(rest)
  {
    if text == "" {
      assert text + rest == rest;
      assert Characters(text) + read(rest) == read(rest);
    } else {
      LiteralByRules(read, text[1..], rest);
      assert text + rest == [text[0]] + (text[1..] + rest);
      assert Characters(text) + read(rest) == [Character(text[0])] + (Characters(text[1..]) + read(rest));
    }
  }

  /** Un-escaping gives back every string, whatever follows it. */
  lemma EscapeReadsBack(value: string, rest: string)
    ensures ReadInline(EscapeText(value) + rest) == Characters(value) + ReadInline(rest)
  {
    InlineReadsCharacters();
    EscapeByRules(ReadInline, value, rest);
  }

  // ---- whole lines ----

  /** A handbook line is literal template text, printed spans and escaped text. */
  datatype Piece = Literal(text: string) | Span(value: string) | Escaped(value: string)

  function RenderPiece(p: Piece): string
  {
    match p
    case Literal(text) => text
    case Span(value) => CodeSpanText(value)
    case Escaped(value) => EscapeText(value)
  }

  function Render(pieces: seq<Piece>): string
  {
    if pieces == [] then "" else RenderPiece(pieces[0]) + Render(pieces[1..])
  }

  function MeaningOf(p: Piece): seq<Token>
  {
    match p
    case Literal(text) => Characters(text)
    case Span(value) => [Code(value)]
    case Escaped(value) => Characters(value)
  }

  function Meaning(pieces: seq<Piece>): seq<Token>
  {
    if pieces == [] then [] else MeaningOf(pieces[0]) + Meaning(pieces[1..])
  }

  /** Template text has no backtick and no backslash, values are printable, and something
      separates a span from the next one. */
  predicate WellFormed(pieces: seq<Piece>)
  {
    pieces == [] ||
    (&& WellFormed(pieces[1..])
     && Sayable(pieces[0])
     && (pieces[0].Span? && |pieces| > 1 ==> !pieces[1].Span?))
  }

  predicate Sayable(p: Piece)
  {
    match p
    case Literal(text) => text != "" && '`' !in text && '\\' !in text
    case Span(value) => value != "" && Printable(value)
    case Escaped(value) => value != ""
  }

  lemma LiteralReadsBack(text: string, rest: string)
    requires '`' !in text && '\\' !in text
    ensures ReadInline(text + rest) == Characters(text) + ReadInline(rest)
  {
    InlineReadsCharacters();
    LiteralByRules(ReadInline, text, rest);
  }

  lemma RenderStartsPlain(pieces: seq<Piece>)
    requires WellFormed(pieces) && (pieces == [] || !pieces[0].Span?)
    ensures NoBacktickFirst(Render(pieces))
  {}

  /** Every rendered line reads back as exactly its pieces. */
  lemma {:induction false} LineReadsBack(pieces: seq<Piece>)
    requires WellFormed(pieces)
    ensures ReadInline(Render(pieces)) == Meaning(pieces)
  {
    if pieces != [] {
      var rest := Render(pieces[1..]);
      LineReadsBack(pieces[1..]);
      match pieces[0]
      case Literal(text) => LiteralReadsBack(text, rest);
      case Escaped(value) => EscapeReadsBack(value, rest);
      case Span(value) =>
        RenderStartsPlain(pieces[1..]);
        CodeSpanReadsBack(value, rest);
    }
  }

  /** A Level 3 location line: module, symbol and kind are all recovered from the text. */
  function LocationLine(moduleName: string, symbol: string, kind: string): seq<Piece>
  {
    [Literal("- ")] + ([Span(moduleName)] + ([Literal(" \U{2014} ")] + ([Span(symbol)] + KindSuffix(kind))))
  }

  function KindSuffix(kind: string): seq<Piece>
  {
    [Literal(" (")] + ([Escaped(kind)] + ([Literal(")")] + []))
  }

  /** Two location lines with the same text name the same module, symbol and kind. */
  lemma LocationLineIsInjective(m1: string, s1: string, k1: string, m2: string, s2: string, k2: string)
    requires m1 != "" && Printable(m1) && s1 != "" && Printable(s1) && k1 != ""
    requires m2 != "" && Printable(m2) && s2 != "" && Printable(s2) && k2 != ""
    requires Render(LocationLine(m1, s1, k1)) == Render(LocationLine(m2, s2, k2))
    ensures m1 == m2 && s1 == s2 && k1 == k2
  {
    LocationMeaning(m1, s1, k1);
    LocationMeaning(m2, s2, k2);
    TokensDecide(m1, s1, k1, m2, s2, k2);
  }

  function LocationTokens(m: string, s: string, k: string): seq<Token>
  {
    Characters("- ") + ([Code(m)] + SymbolTokens(s, k))
  }

  function SymbolTokens(s: string, k: string): seq<Token>
  {
    Characters(" \U{2014} ") + ([Code(s)] + (Characters(" (") + Characters(k) + Characters(")")))
  }

  lemma TokensDecide(m1: string, s1: string, k1: string, m2: string, s2: string, k2: string)
    requires LocationTokens(m1, s1, k1) == LocationTokens(m2, s2, k2)
    ensures m1 == m2 && s1 == s2 && k1 == k2
  {
    var a, b := LocationTokens(m1, s1, k1), LocationTokens(m2, s2, k2);
    assert a[2] == Code(m1) && b[2] == Code(m2);
    assert a[6] == Code(s1) && b[6] == Code(s2);
    assert |a| == 10 + |k1| && |b| == 10 + |k2|;
    forall i | 0 <= i < |k1|
      ensures k1[i] == k2[i]
    {
      assert a[9 + i] == Character(k1[i]) && b[9 + i] == Character(k2[i]);
    }
  }

  lemma MeaningCons(p: Piece, rest: seq<Piece>)
    ensures Meaning([p] + rest) == MeaningOf(p) + Meaning(rest)
    ensures WellFormed(rest) && Sayable(p) && (p.Span? && rest != [] ==> !rest[0].Span?) ==> WellFormed([p] + rest)
  {}

  lemma SuffixMeaning(k: string)
    requires k != ""
    ensures WellFormed(KindSuffix(k)) && KindSuffix(k)[0] == Literal(" (")
    ensures Meaning(KindSuffix(k)) == Characters(" (") + Characters(k) + Characters(")")
  {
    MeaningCons(Literal(")"), []);
    MeaningCons(Escaped(k), [Literal(")")] + []);
    MeaningCons(Literal(" ("), [Escaped(k)] + ([Literal(")")] + []));
  }

  lemma SymbolMeaning(s: string, k: string)
    requires s != "" && Printable(s) && k != ""
    ensures
      var line := [Literal(" \U{2014} ")] + ([Span(s)] + KindSuffix(k));
      && WellFormed(line) && line[0].Literal?
      && Meaning(line) == SymbolTokens(s, k)
  {
    SuffixMeaning(k);
    MeaningCons(Span(s), KindSuffix(k));
    MeaningCons(Literal(" \U{2014} "), [Span(s)] + KindSuffix(k));
  }

  lemma FrontMeaning(m: string, line: seq<Piece>)
    requires m != "" && Printable(m) && WellFormed(line) && line != [] && line[0].Literal?
    ensures
      var all := [Literal("- ")] + ([Span(m)] + line);
      && WellFormed(all)
      && Meaning(all) == Characters("- ") + ([Code(m)] + Meaning(line))
  {
    MeaningCons(Span(m), line);
    MeaningCons(Literal("- "), [Span(m)] + line);
  }

  lemma LocationMeaning(m: string, s: string, k: string)
    requires m != "" && Printable(m) && s != "" && Printable(s) && k != ""
    ensures ReadInline(Render(LocationLine(m, s, k))) == LocationTokens(m, s, k)
  {
    SymbolMeaning(s, k);
    FrontMeaning(m, [Literal(" \U{2014} ")] + ([Span(s)] + KindSuffix(k)));
    LineReadsBack(LocationLine(m, s, k));
  }
}
