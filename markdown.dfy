/** The Markdown export of a generated story (`generateMarkdown` in
    src/components/ResultsDisplay.tsx). The document is specified by pure
    functions, one per section, and built by a method that appends to an
    accumulator in loops, as the component does. */
module Markdown {
  import opened JsText
  import opened StoryTypes

  /** The concatenation of `block(1, xs[0])`, `block(2, xs[1])`, ...: the text
      a `forEach((x, index) => ...)` loop appends, item `index` numbered
      `index + 1`. */
  function Blocks<T>(xs: seq<T>, block: (nat, T) -> string): string {
    if xs == [] then ""
    else Blocks(xs[..|xs| - 1], block) + block(|xs|, xs[|xs| - 1])
  }

  /** The same text, read front to back from number `k` on. */
  function BlocksFrom<T>(k: nat, xs: seq<T>, block: (nat, T) -> string): string
    decreases |xs|
  {
    if xs == [] then ""
    else block(k, xs[0]) + BlocksFrom(k + 1, xs[1..], block)
  }

  /** `${index + 1}. ${item}\n` */
  function NumberedLine(n: nat, item: string): string {
    NatToString(n) + ". " + item + "\n"
  }

  /** `- ${item}\n` (the loop ignores the index) */
  function BulletLine(n: nat, item: string): string {
    "- " + item + "\n"
  }

  /** A numbered-list section: header, blank line, one line per item, blank line. */
  function ListSection(header: string, items: seq<string>): string {
    "## " + header + "\n\n" + Blocks(items, NumberedLine) + "\n"
  }

  function ErrorBlock(n: nat, e: ErrorScenario): string {
    ("### " + NatToString(n) + ". " + e.scenario + "\n") + ("- " + e.message + "\n\n")
  }

  /** A bold step header followed by its `- item` bullets. */
  function StepList(header: string, items: seq<string>): string {
    header + Blocks(items, BulletLine)
  }

  function TestCaseBlock(n: nat, t: TestCase): string {
    ("### " + NatToString(n) + ". " + t.title + "\n")
    + ("**Scenario:** " + t.scenario + "\n\n")
    + StepList("**Given:**\n", t.givenSteps)
    + StepList("\n**When:**\n", t.whenSteps)
    + StepList("\n**Then:**\n", t.thenSteps)
    + "\n"
  }

  function ApiBlock(n: nat, a: ApiSpec): string {
    ("### " + NatToString(n) + ". " + a.httpMethod + " " + a.endpoint + "\n") + (a.description + "\n\n")
  }

  const ApiHeader: string := "## API Specifications\n\n"

  /** The optional section: only written when there is at least one spec. */
  function ApiSection(specs: seq<ApiSpec>): string {
    if |specs| > 0 then ApiHeader + Blocks(specs, ApiBlock) else ""
  }

  function Heading(s: UserStoryResponse): string {
    "# User Story\n\n" + s.story + "\n\n"
  }

  function ValueSection(s: UserStoryResponse): string {
    "## Value Statement\n\n" + s.valueStatement + "\n\n"
  }

  function ErrorSection(es: seq<ErrorScenario>): string {
    "## Error Scenarios\n\n" + Blocks(es, ErrorBlock)
  }

  function TestSection(ts: seq<TestCase>): string {
    "## Test Cases\n\n" + Blocks(ts, TestCaseBlock)
  }

  function Metadata(s: UserStoryResponse): string {
    "## Metadata\n\n" + ("- Priority: " + s.priority + "\n") + ("- Effort Estimate: " + s.effortEstimate + "\n")
  }

  /** The whole document, its sections in this order. */
  function Document(s: UserStoryResponse): string {
    Heading(s)
    + ValueSection(s)
    + ListSection("Use Case Examples", s.useCaseExamples)
    + ListSection("Acceptance Criteria", s.acceptanceCriteria)
    + ListSection("Functional Requirements", s.functionalRequirements)
    + ListSection("Non-Functional Requirements", s.nonFunctionalRequirements)
    + ListSection("Technical Considerations", s.technicalConsiderations)
    + ErrorSection(s.errorScenarios)
    + TestSection(s.testCases)
    + ApiSection(s.apiSpecs)
    + Metadata(s)
  }

  lemma BlocksSnoc<T>(xs: seq<T>, x: T, block: (nat, T) -> string)
    ensures Blocks(xs + [x], block) == Blocks(xs, block) + block(|xs| + 1, x)
  {
    assert (xs + [x])[..|xs|] == xs;
  }

  /** One turn of an appending loop keeps `md` equal to the start text
      followed by the blocks of the items seen so far. */
  lemma BlocksStep<T>(start: string, md: string, xs: seq<T>, i: nat, block: (nat, T) -> string)
    requires i < |xs| && md == start + Blocks(xs[..i], block)
    ensures md + block(i + 1, xs[i]) == start + Blocks(xs[..i + 1], block)
  {
    assert xs[..i + 1] == xs[..i] + [xs[i]];
    BlocksSnoc(xs[..i], xs[i], block);
  }

  lemma {:induction false} BlocksFromCons<T>(k: nat, xs: seq<T>, x: T, block: (nat, T) -> string)
    ensures BlocksFrom(k, xs + [x], block) == BlocksFrom(k, xs, block) + block(k + |xs|, x)
    decreases |xs|
  {
    if xs == [] {
      assert xs + [x] == [x];
    } else {
      assert (xs + [x])[1..] == xs[1..] + [x];
      BlocksFromCons(k + 1, xs[1..], x, block);
    }
  }

  /** Every item is numbered by its position, from 1, in input order: the
      loop's text is the front-to-back reading numbered from 1. */
  lemma {:induction false} BlocksNumberedFromOne<T>(xs: seq<T>, block: (nat, T) -> string)
    ensures Blocks(xs, block) == BlocksFrom(1, xs, block)
  {
    if xs != [] {
      var init := xs[..|xs| - 1];
      BlocksNumberedFromOne(init, block);
      BlocksFromCons(1, init, xs[|xs| - 1], block);
      assert init + [xs[|xs| - 1]] == xs;
    }
  }

  /** The text for the first `k` items is a prefix of the text for all of
      them: items come out in input order and later items never alter
      earlier lines. */
  lemma {:induction false} BlocksPrefix<T>(xs: seq<T>, k: nat, block: (nat, T) -> string)
    requires k <= |xs|
    ensures Blocks(xs[..k], block) <= Blocks(xs, block)
    decreases |xs| - k
  {
    if k < |xs| {
      BlocksPrefix(xs[..|xs| - 1], k, block);
      assert xs[..|xs| - 1][..k] == xs[..k];
    } else {
      assert xs[..k] == xs;
    }
  }

  /** The number of line breaks in a text. */
  function Newlines(s: string): nat {
    if s == [] then 0 else Newlines(s[..|s| - 1]) + (if s[|s| - 1] == '\n' then 1 else 0)
  }

  lemma {:induction false} NewlinesAppend(a: string, b: string)
    ensures Newlines(a + b) == Newlines(a) + Newlines(b)
    decreases |b|
  {
    if b == [] {
      assert a + b == a;
    } else {
      var b' := b[..|b| - 1];
      assert (a + b)[..|a + b| - 1] == a + b';
      NewlinesAppend(a, b');
    }
  }

  lemma {:induction false} NoNewlines(s: string)
    requires '\n' !in s
    ensures Newlines(s) == 0
    decreases |s|
  {
    if s != [] {
      NoNewlines(s[..|s| - 1]);
    }
  }

  /** A numbered list of single-line items has exactly one line per item. */
  lemma {:induction false} NumberedListLines(items: seq<string>)
    requires forall i :: 0 <= i < |items| ==> '\n' !in items[i]
    ensures Newlines(Blocks(items, NumberedLine)) == |items|
  {
    if items != [] {
      var init := items[..|items| - 1];
      var last := items[|items| - 1];
      NumberedListLines(init);
      var digits := NatToString(|items|);
      assert '\n' !in digits by {
        assert forall i :: 0 <= i < |digits| ==> IsDigit(digits[i]);
      }
      NoNewlines(digits);
      NoNewlines(". ");
      NoNewlines(last);
      NewlinesAppend(digits, ". ");
      NewlinesAppend(digits + ". ", last);
      NewlinesAppend(digits + ". " + last, "\n");
      NewlinesAppend(Blocks(init, NumberedLine), NumberedLine(|items|, last));
    }
  }

  /** An empty list still gets its header and a blank line. */
  lemma EmptyListSection(header: string)
    ensures ListSection(header, []) == "## " + header + "\n\n\n"
  {
  }

  /** The API section is written exactly when there are specifications, and
      then it opens with its header. */
  lemma ApiSectionPresentIff(specs: seq<ApiSpec>)
    ensures ApiSection(specs) != [] <==> |specs| > 0
    ensures |specs| > 0 ==> ApiHeader <= ApiSection(specs)
  {
    if |specs| > 0 {
      assert ApiSection(specs)[0] == '#';
    }
  }

  /** The document opens with the story under its heading and closes with the
      priority and effort lines. */
  lemma DocumentFrame(s: UserStoryResponse)
    ensures "# User Story\n\n" + s.story + "\n\n" <= Document(s)
    ensures var tail := "- Priority: " + s.priority + "\n" + "- Effort Estimate: " + s.effortEstimate + "\n";
            Document(s)[|Document(s)| - |tail|..] == tail
  {
    var d := Document(s);
    var tail := "- Priority: " + s.priority + "\n" + "- Effort Estimate: " + s.effortEstimate + "\n";
    var middle := d[|Heading(s)|..|d| - |Metadata(s)|];
    assert Heading(s) <= d;
    assert Metadata(s) == "## Metadata\n\n" + tail;
    assert d[|d| - |Metadata(s)|..] == Metadata(s);
  }

  /** Appends the text of a numbered-list loop. */
  method AppendNumbered(acc: string, items: seq<string>) returns (md: string)
    ensures md == acc + Blocks(items, NumberedLine)
  {
    md := acc;
    var i := 0;
    while i < |items|
      invariant 0 <= i <= |items|
      invariant md == acc + Blocks(items[..i], NumberedLine)
    {
      BlocksStep(acc, md, items, i, NumberedLine);
      md := md + NatToString(i + 1) + ". " + items[i] + "\n";
      i := i + 1;
    }
    assert items[..i] == items;
  }

  /** A numbered-list section: header, the loop, the closing blank line. */
  method AppendListSection(acc: string, header: string, items: seq<string>) returns (md: string)
    ensures md == acc + ListSection(header, items)
  {
    md := acc + ("## " + header + "\n\n");
    md := AppendNumbered(md, items);
    md := md + "\n";
  }

  /** A step header and the `- item` lines of a given/when/then list. */
  method AppendStepList(acc: string, header: string, items: seq<string>) returns (md: string)
    ensures md == acc + StepList(header, items)
  {
    md := acc + header;
    ghost var start := md;
    var i := 0;
    while i < |items|
      invariant 0 <= i <= |items|
      invariant md == start + Blocks(items[..i], BulletLine)
    {
      BlocksStep(start, md, items, i, BulletLine);
      md := md + "- " + items[i] + "\n";
      i := i + 1;
    }
    assert items[..i] == items;
  }

  /** One iteration of the error-scenario loop. */
  method AppendErrorScenario(acc: string, n: nat, e: ErrorScenario) returns (md: string)
    ensures md == acc + ErrorBlock(n, e)
  {
    md := acc + ("### " + NatToString(n) + ". " + e.scenario + "\n");
    md := md + ("- " + e.message + "\n\n");
  }

  method AppendErrorSection(acc: string, es: seq<ErrorScenario>) returns (md: string)
    ensures md == acc + ErrorSection(es)
  {
    md := acc + "## Error Scenarios\n\n";
    ghost var start := md;
    var i := 0;
    while i < |es|
      invariant 0 <= i <= |es|
      invariant md == start + Blocks(es[..i], ErrorBlock)
    {
      BlocksStep(start, md, es, i, ErrorBlock);
      md := AppendErrorScenario(md, i + 1, es[i]);
      i := i + 1;
    }
    assert es[..i] == es;
  }

  /** One iteration of the test-case loop, with its three inner loops. */
  method AppendTestCase(acc: string, n: nat, t: TestCase) returns (md: string)
    ensures md == acc + TestCaseBlock(n, t)
  {
    md := acc + ("### " + NatToString(n) + ". " + t.title + "\n");
    md := md + ("**Scenario:** " + t.scenario + "\n\n");
    md := AppendStepList(md, "**Given:**\n", t.givenSteps);
    md := AppendStepList(md, "\n**When:**\n", t.whenSteps);
    md := AppendStepList(md, "\n**Then:**\n", t.thenSteps);
    md := md + "\n";
  }

  /** The test-case loop. */
  method AppendTestCases(acc: string, ts: seq<TestCase>) returns (md: string)
    ensures md == acc + Blocks(ts, TestCaseBlock)
  {
    md := acc;
    var i := 0;
    while i < |ts|
      invariant 0 <= i <= |ts|
      invariant md == acc + Blocks(ts[..i], TestCaseBlock)
    {
      BlocksStep(acc, md, ts, i, TestCaseBlock);
      md := AppendTestCase(md, i + 1, ts[i]);
      i := i + 1;
    }
    assert ts[..i] == ts;
  }

  method AppendTestSection(acc: string, ts: seq<TestCase>) returns (md: string)
    ensures md == acc + TestSection(ts)
  {
    md := acc + "## Test Cases\n\n";
    md := AppendTestCases(md, ts);
  }

  /** One iteration of the API-specification loop. */
  method AppendApiSpec(acc: string, n: nat, a: ApiSpec) returns (md: string)
    ensures md == acc + ApiBlock(n, a)
  {
    md := acc + ("### " + NatToString(n) + ". " + a.httpMethod + " " + a.endpoint + "\n");
    md := md + (a.description + "\n\n");
  }

  /** The guarded API section. */
  method AppendApiSection(acc: string, specs: seq<ApiSpec>) returns (md: string)
    ensures md == acc + ApiSection(specs)
  {
    md := acc;
    if |specs| > 0 {
      md := md + ApiHeader;
      ghost var start := md;
      var i := 0;
      while i < |specs|
        invariant 0 <= i <= |specs|
        invariant md == start + Blocks(specs[..i], ApiBlock)
      {
        BlocksStep(start, md, specs, i, ApiBlock);
        md := AppendApiSpec(md, i + 1, specs[i]);
        i := i + 1;
      }
      assert specs[..i] == specs;
    }
  }

  /** `generateMarkdown`: the accumulator ends up holding the document. */
  method GenerateMarkdown(s: UserStoryResponse) returns (md: string)
    ensures md == Document(s)
  {
    md := "# User Story\n\n" + s.story + "\n\n";
    md := md + ("## Value Statement\n\n" + s.valueStatement + "\n\n");
    md := AppendListSection(md, "Use Case Examples", s.useCaseExamples);
    md := AppendListSection(md, "Acceptance Criteria", s.acceptanceCriteria);
    md := AppendListSection(md, "Functional Requirements", s.functionalRequirements);
    md := AppendListSection(md, "Non-Functional Requirements", s.nonFunctionalRequirements);
    md := AppendListSection(md, "Technical Considerations", s.technicalConsiderations);
    md := AppendErrorSection(md, s.errorScenarios);
    md := AppendTestSection(md, s.testCases);
    md := AppendApiSection(md, s.apiSpecs);
    md := md + "## Metadata\n\n";
    md := md + ("- Priority: " + s.priority + "\n");
    md := md + ("- Effort Estimate: " + s.effortEstimate + "\n");
  }
}
