/**
 * The parameter schemas of the five tools (src/tools/tools.ts:13-196) and
 * the answer a tool call gives.
 *
 * Every `.default(...)` in the schemas is wrapped in `.optional()`, so an
 * absent field stays absent after parsing: the value a handler receives is
 * the value the caller sent. Validation is therefore modelled as a list of
 * issues computed from that value, empty exactly when the value is accepted.
 * URL syntax (`z.string().url()`) is a predicate supplied by the caller.
 */
module Schema {
  import opened Wrappers

  /** `axeOptions.runOnly` literals (tools.ts:37-46). */
  const RunOnlyTags: seq<string> :=
    ["wcag2a", "wcag2aa", "wcag2aaa", "wcag21a", "wcag21aa", "wcag22aa", "best-practice", "experimental"]

  /** Impact literals of a violation and of a node (tools.ts:158-163, 169-174). */
  const ImpactNames: seq<string> := ["minor", "moderate", "serious", "critical"]

  /** `format` literals (tools.ts:185-192); accepted and never read. */
  const FormatNames: seq<string> := ["default", "simple", "detailed", "markdown", "html", "csv"]

  /** Bounds on the number of URLs in one batch (tools.ts:146-147). */
  const MinBatchUrls: nat := 1
  const MaxBatchUrls: nat := 20

  /** A step in the path of a rejected field, as zod reports it. */
  datatype PathSegment = Key(name: string) | Index(position: nat)

  datatype IssueKind =
    | Required      // a mandatory field is absent
    | InvalidUrl    // `z.string().url()` refused the string
    | TooFewUrls    // `.min(1)` on the URL list
    | TooManyUrls   // `.max(20)` on the URL list
    | EmptyHtml     // `.min(1)` on the HTML string
    | NotPositive   // `.positive()` on a number
    | NotInEnum     // a string outside a `z.union` of literals

  datatype Issue = Issue(path: seq<PathSegment>, kind: IssueKind)

  /**
   * What a tool call answers: the object it serialises as its text content,
   * an error-flagged text (`isError: true`), or a rejection of the
   * parameters before the handler runs.
   */
  datatype Response<T> = Payload(value: T) | ToolError(text: string) | Rejected(issues: seq<Issue>)

  // ---------------------------------------------------------------------
  // Options shared by scan-url, scan-html and scan-batch (tools.ts:18-72)
  // ---------------------------------------------------------------------

  datatype Viewport = Viewport(width: Option<int>, height: Option<int>)

  /** `rules` is accepted and never passed on to the engine. */
  datatype AxeOptions = AxeOptions(runOnly: Option<string>, rules: Option<map<string, bool>>)

  datatype ScanOptions = ScanOptions(
    waitForPageLoad: Option<int>,
    viewport: Option<Viewport>,
    axeOptions: Option<AxeOptions>,
    includeHtml: Option<bool>,
    maxResults: Option<int>)

  predicate PositiveOrAbsent(n: Option<int>)
  {
    n.None? || n.value > 0
  }

  predicate MemberOrAbsent(s: Option<string>, allowed: seq<string>)
  {
    s.None? || s.value in allowed
  }

  /** The options the schema accepts. */
  predicate ValidOptions(o: ScanOptions)
  {
    && PositiveOrAbsent(o.waitForPageLoad)
    && (o.viewport.Some? ==>
          PositiveOrAbsent(o.viewport.value.width) && PositiveOrAbsent(o.viewport.value.height))
    && (o.axeOptions.Some? ==> MemberOrAbsent(o.axeOptions.value.runOnly, RunOnlyTags))
    && PositiveOrAbsent(o.maxResults)
  }

  function PositiveIssues(path: seq<PathSegment>, n: Option<int>): (r: seq<Issue>)
    ensures r == [] <==> PositiveOrAbsent(n)
    ensures forall i :: i in r ==> i == Issue(path, NotPositive)
  {
    if n.Some? && n.value <= 0 then [Issue(path, NotPositive)] else []
  }

  function EnumIssues(path: seq<PathSegment>, s: Option<string>, allowed: seq<string>): (r: seq<Issue>)
    ensures r == [] <==> MemberOrAbsent(s, allowed)
    ensures forall i :: i in r ==> i == Issue(path, NotInEnum)
  {
    if s.Some? && s.value !in allowed then [Issue(path, NotInEnum)] else []
  }

  function OptionIssues(o: ScanOptions): (issues: seq<Issue>)
    ensures issues == [] <==> ValidOptions(o)
    ensures forall i :: i in issues ==> i.kind == NotPositive || i.kind == NotInEnum
  {
    PositiveIssues([Key("waitForPageLoad")], o.waitForPageLoad)
    + (if o.viewport.Some?
       then PositiveIssues([Key("viewport"), Key("width")], o.viewport.value.width)
            + PositiveIssues([Key("viewport"), Key("height")], o.viewport.value.height)
       else [])
    + (if o.axeOptions.Some?
       then EnumIssues([Key("axeOptions"), Key("runOnly")], o.axeOptions.value.runOnly, RunOnlyTags)
       else [])
    + PositiveIssues([Key("maxResults")], o.maxResults)
  }

  // ---------------------------------------------------------------------
  // scan-url and scan-html (tools.ts:14-17, 76-80)
  // ---------------------------------------------------------------------

  /** What a single scan loads: a page to navigate to, or markup to inject. */
  datatype ScanTarget = Url(url: string) | Html(html: string)

  datatype ScanInput = ScanInput(target: ScanTarget, options: ScanOptions)

  predicate ValidTarget(t: ScanTarget, isUrl: string -> bool)
  {
    match t
    case Url(u) => isUrl(u)
    case Html(h) => |h| >= 1
  }

  function TargetIssues(t: ScanTarget, isUrl: string -> bool): (r: seq<Issue>)
    ensures r == [] <==> ValidTarget(t, isUrl)
  {
    match t
    case Url(u) => if isUrl(u) then [] else [Issue([Key("url")], InvalidUrl)]
    case Html(h) => if |h| >= 1 then [] else [Issue([Key("html")], EmptyHtml)]
  }

  function ScanIssues(input: ScanInput, isUrl: string -> bool): (issues: seq<Issue>)
    ensures issues == [] <==> ValidTarget(input.target, isUrl) && ValidOptions(input.options)
  {
    TargetIssues(input.target, isUrl) + OptionIssues(input.options)
  }

  // ---------------------------------------------------------------------
  // scan-batch (tools.ts:139-150)
  // ---------------------------------------------------------------------

  /**
   * The batch parameters. `url` is there because the batch schema spreads
   * the whole scan-url shape, whose `url` field is mandatory.
   */
  datatype BatchInput = BatchInput(urls: seq<string>, url: Option<string>, options: ScanOptions)

  /** One `InvalidUrl` issue per refused element, at `urls[k]`, in list order. */
  function UrlElementIssues(urls: seq<string>, isUrl: string -> bool, base: nat): (r: seq<Issue>)
    ensures r == [] <==> forall k :: 0 <= k < |urls| ==> isUrl(urls[k])
    ensures forall k :: 0 <= k < |urls| && !isUrl(urls[k]) ==> Issue([Key("urls"), Index(base + k)], InvalidUrl) in r
    ensures forall i :: i in r ==> i.kind == InvalidUrl
    decreases |urls|
  {
    if urls == [] then []
    else
      var rest := UrlElementIssues(urls[1..], isUrl, base + 1);
      assert forall k :: 1 <= k < |urls| ==> urls[k] == urls[1..][k - 1];
      (if isUrl(urls[0]) then [] else [Issue([Key("urls"), Index(base)], InvalidUrl)]) + rest
  }

  /** The checks on the URL list: `.min(1)` and `.max(20)` on its length, then every element. */
  function UrlListIssues(urls: seq<string>, isUrl: string -> bool): (r: seq<Issue>)
    ensures r == [] <==> MinBatchUrls <= |urls| <= MaxBatchUrls && forall k :: 0 <= k < |urls| ==> isUrl(urls[k])
    ensures |urls| < MinBatchUrls ==> Issue([Key("urls")], TooFewUrls) in r
    ensures |urls| > MaxBatchUrls ==> Issue([Key("urls")], TooManyUrls) in r
  {
    (if |urls| < MinBatchUrls then [Issue([Key("urls")], TooFewUrls)] else [])
    + (if |urls| > MaxBatchUrls then [Issue([Key("urls")], TooManyUrls)] else [])
    + UrlElementIssues(urls, isUrl, 0)
  }

  /**
   * The batch schema as written: besides `urls` and the options it demands
   * the scan-url `url` field, which the handler never reads.
   */
  function BatchIssuesAsWritten(input: BatchInput, isUrl: string -> bool): (issues: seq<Issue>)
    ensures issues == [] <==>
      && MinBatchUrls <= |input.urls| <= MaxBatchUrls
      && (forall k :: 0 <= k < |input.urls| ==> isUrl(input.urls[k]))
      && input.url.Some? && isUrl(input.url.value)
      && ValidOptions(input.options)
    ensures input.url.None? ==> Issue([Key("url")], Required) in issues
  {
    UrlListIssues(input.urls, isUrl) + UrlFieldIssues(input.url, isUrl) + OptionIssues(input.options)
  }

  /** The scan-url `url` field: mandatory, and a URL. */
  function UrlFieldIssues(url: Option<string>, isUrl: string -> bool): seq<Issue>
  {
    if url.None? then [Issue([Key("url")], Required)]
    else if isUrl(url.value) then []
    else [Issue([Key("url")], InvalidUrl)]
  }

  /** The batch schema with the stray `url` requirement removed. */
  function BatchIssues(input: BatchInput, isUrl: string -> bool): (issues: seq<Issue>)
    ensures issues == [] <==>
      && MinBatchUrls <= |input.urls| <= MaxBatchUrls
      && (forall k :: 0 <= k < |input.urls| ==> isUrl(input.urls[k]))
      && ValidOptions(input.options)
    ensures |input.urls| > MaxBatchUrls ==> Issue([Key("urls")], TooManyUrls) in issues
    ensures |input.urls| < MinBatchUrls ==> Issue([Key("urls")], TooFewUrls) in issues
  {
    UrlListIssues(input.urls, isUrl) + OptionIssues(input.options)
  }

  /**
   * Finding: a batch call that sends only the URL list and the options is
   * refused by the schema as written, and accepted once `url` is dropped.
   */
  lemma BatchSchemaDemandsStrayUrl(isUrl: string -> bool)
    requires isUrl("https://example.com")
    ensures var input := BatchInput(["https://example.com"], None, ScanOptions(None, None, None, None, None));
      && BatchIssuesAsWritten(input, isUrl) != []
      && BatchIssues(input, isUrl) == []
  {
    var input := BatchInput(["https://example.com"], None, ScanOptions(None, None, None, None, None));
    assert Issue([Key("url")], Required) in BatchIssuesAsWritten(input, isUrl);
  }

  // ---------------------------------------------------------------------
  // summarize-violations and write-violations-report (tools.ts:153-196)
  // ---------------------------------------------------------------------

  datatype ViolationNode = ViolationNode(
    impact: string,
    target: seq<string>,
    failureSummary: Option<string>,
    html: Option<string>)

  datatype ViolationRecord = ViolationRecord(
    id: string,
    impact: string,
    description: string,
    helpUrl: Option<string>,
    nodes: Option<seq<ViolationNode>>)

  datatype SummaryInput = SummaryInput(violations: seq<ViolationRecord>, format: Option<string>)

  predicate ValidRecord(v: ViolationRecord)
  {
    && v.impact in ImpactNames
    && (v.nodes.Some? ==> forall j :: 0 <= j < |v.nodes.value| ==> v.nodes.value[j].impact in ImpactNames)
  }

  predicate ValidSummaryInput(input: SummaryInput)
  {
    && (forall k :: 0 <= k < |input.violations| ==> ValidRecord(input.violations[k]))
    && MemberOrAbsent(input.format, FormatNames)
  }

  /** Issues of nodes `base..` of violation `vi`. */
  function NodeIssues(vi: nat, nodes: seq<ViolationNode>, base: nat): (r: seq<Issue>)
    ensures r == [] <==> forall j :: 0 <= j < |nodes| ==> nodes[j].impact in ImpactNames
    decreases |nodes|
  {
    if nodes == [] then []
    else
      var rest := NodeIssues(vi, nodes[1..], base + 1);
      assert forall j :: 1 <= j < |nodes| ==> nodes[j] == nodes[1..][j - 1];
      (if nodes[0].impact in ImpactNames then []
       else [Issue([Key("violations"), Index(vi), Key("nodes"), Index(base), Key("impact")], NotInEnum)])
      + rest
  }

  function RecordIssues(vs: seq<ViolationRecord>, base: nat): (r: seq<Issue>)
    ensures r == [] <==> forall k :: 0 <= k < |vs| ==> ValidRecord(vs[k])
    decreases |vs|
  {
    if vs == [] then []
    else
      var v := vs[0];
      var rest := RecordIssues(vs[1..], base + 1);
      assert forall k :: 1 <= k < |vs| ==> vs[k] == vs[1..][k - 1];
      (if v.impact in ImpactNames then []
       else [Issue([Key("violations"), Index(base), Key("impact")], NotInEnum)])
      + (if v.nodes.Some? then NodeIssues(base, v.nodes.value, 0) else [])
      + rest
  }

  function SummaryIssues(input: SummaryInput): (issues: seq<Issue>)
    ensures issues == [] <==> ValidSummaryInput(input)
  {
    RecordIssues(input.violations, 0) + EnumIssues([Key("format")], input.format, FormatNames)
  }
}
