/**
 * The scan configuration a handler derives from its options and the
 * normalisation of the rule engine's raw output (`performA11yScan`,
 * src/tools/tools.ts:201-238, and the viewport and wait fallbacks used by
 * every scan handler).
 *
 * The rule engine is an oracle: its raw result for a page is an input here.
 */
module Scan {
  import opened Wrappers
  import opened Schema

  // ---------------------------------------------------------------------
  // The engine's raw result
  // ---------------------------------------------------------------------

  datatype EngineNode = EngineNode(
    impact: Option<string>,
    target: seq<string>,
    failureSummary: Option<string>,
    html: string)

  /** One rule's outcome; violations, passes and incomplete share this shape. */
  datatype RuleResult = RuleResult(
    id: string,
    impact: Option<string>,
    description: string,
    helpUrl: string,
    nodes: seq<EngineNode>)

  datatype EngineResult = EngineResult(
    violations: seq<RuleResult>,
    passes: seq<RuleResult>,
    incomplete: seq<RuleResult>)

  // ---------------------------------------------------------------------
  // What a scan returns
  // ---------------------------------------------------------------------

  datatype ReportedNode = ReportedNode(
    impact: Option<string>,
    target: seq<string>,
    failureSummary: Option<string>,
    html: Option<string>)

  datatype ReportedViolation = ReportedViolation(
    id: string,
    impact: Option<string>,
    description: string,
    helpUrl: string,
    nodes: seq<ReportedNode>)

  datatype ScanSummary = ScanSummary(
    timestamp: string,
    violationsCount: nat,
    passesCount: nat,
    incompleteCount: nat)

  datatype ScanReport = ScanReport(summary: ScanSummary, violations: seq<ReportedViolation>)

  /** A browser viewport, as handed to `browser.newContext`. */
  datatype Size = Size(width: int, height: int)

  // ---------------------------------------------------------------------
  // Configuration fallbacks
  // ---------------------------------------------------------------------

  const DefaultTags: seq<string> := ["wcag2a", "wcag2aa", "wcag21aa"]
  const DefaultMaxResults: int := 50
  const DefaultWidth: int := 1280
  const DefaultHeight: int := 720

  /** JavaScript truthiness of an optional string, number and boolean. */
  predicate TruthyString(s: Option<string>) { s.Some? && s.value != "" }
  predicate TruthyNumber(n: Option<int>) { n.Some? && n.value != 0 }
  predicate TruthyBool(b: Option<bool>) { b == Some(true) }

  /** `params.axeOptions?.runOnly` */
  function RunOnly(o: ScanOptions): Option<string>
  {
    if o.axeOptions.Some? then o.axeOptions.value.runOnly else None
  }

  /** The rule tags handed to the engine (tools.ts:209-211). */
  function ActiveTags(o: ScanOptions): (tags: seq<string>)
    ensures RunOnly(o).Some? && ValidOptions(o) ==> tags == [RunOnly(o).value]
    ensures RunOnly(o).None? ==> tags == DefaultTags
    ensures ValidOptions(o) ==> |tags| >= 1 && forall t :: t in tags ==> t in RunOnlyTags
  {
    if TruthyString(RunOnly(o)) then [RunOnly(o).value] else DefaultTags
  }

  /** `params.maxResults || 50` (tools.ts:216). */
  function ResultLimit(o: ScanOptions): (m: int)
    ensures o.maxResults.None? ==> m == DefaultMaxResults
    ensures o.maxResults.Some? && o.maxResults.value != 0 ==> m == o.maxResults.value
    ensures o.maxResults == Some(0) ==> m == DefaultMaxResults
    ensures ValidOptions(o) ==> m > 0
  {
    if TruthyNumber(o.maxResults) then o.maxResults.value else DefaultMaxResults
  }

  /** `viewport?.width ?? 1280`, `viewport?.height ?? 720` (tools.ts:257-260). */
  function ResolveViewport(o: ScanOptions): (s: Size)
    ensures o.viewport.None? ==> s == Size(DefaultWidth, DefaultHeight)
    ensures o.viewport.Some? && o.viewport.value.width.Some? ==> s.width == o.viewport.value.width.value
    ensures o.viewport.Some? && o.viewport.value.width.None? ==> s.width == DefaultWidth
    ensures o.viewport.Some? && o.viewport.value.height.Some? ==> s.height == o.viewport.value.height.value
    ensures o.viewport.Some? && o.viewport.value.height.None? ==> s.height == DefaultHeight
    ensures ValidOptions(o) ==> s.width > 0 && s.height > 0
  {
    match o.viewport
    case None => Size(DefaultWidth, DefaultHeight)
    case Some(v) => Size(v.width.GetOr(DefaultWidth), v.height.GetOr(DefaultHeight))
  }

  /**
   * The post-load delay, if any (tools.ts:270-272): it happens only when
   * `waitForPageLoad` is truthy; an absent value means no delay at all, not
   * the schema's documented default.
   */
  function PostLoadWait(o: ScanOptions): (w: Option<int>)
    ensures o.waitForPageLoad.None? ==> w.None?
    ensures ValidOptions(o) ==> w == o.waitForPageLoad
    ensures w.Some? ==> w.value != 0
  {
    if TruthyNumber(o.waitForPageLoad) then o.waitForPageLoad else None
  }

  /** How a handler drives each page: its context's viewport, the post-load wait, the engine's tags. */
  datatype PageConfig = PageConfig(viewport: Size, wait: Option<int>, tags: seq<string>)

  function ConfigOf(o: ScanOptions): PageConfig
  {
    PageConfig(ResolveViewport(o), PostLoadWait(o), ActiveTags(o))
  }

  // ---------------------------------------------------------------------
  // Normalisation (tools.ts:215-235)
  // ---------------------------------------------------------------------

  function Min(a: int, b: int): int { if a <= b then a else b }

  /** JavaScript's `s.slice(0, end)`: a negative end counts from the back. */
  function SliceTo<T>(s: seq<T>, end: int): (r: seq<T>)
    ensures |r| <= |s| && r == s[..|r|]
    ensures end >= 0 ==> |r| == Min(end, |s|)
    ensures end < 0 ==> |r| == if |s| + end >= 0 then |s| + end else 0
  {
    if end >= 0 then (if end <= |s| then s[..end] else s)
    else if |s| + end >= 0 then s[..|s| + end]
    else []
  }

  /** How a returned node relates to the engine's node. */
  predicate NodeReports(r: ReportedNode, n: EngineNode, includeHtml: bool)
  {
    && r.impact == n.impact
    && r.target == n.target
    && r.failureSummary == n.failureSummary
    && (r.html.Some? <==> includeHtml)
    && (r.html.Some? ==> r.html.value == n.html)
  }

  /** How a returned violation relates to the engine's violation: every node kept, in order. */
  predicate ViolationReports(r: ReportedViolation, v: RuleResult, includeHtml: bool)
  {
    && r.id == v.id
    && r.impact == v.impact
    && r.description == v.description
    && r.helpUrl == v.helpUrl
    && |r.nodes| == |v.nodes|
    && forall j :: 0 <= j < |r.nodes| ==> NodeReports(r.nodes[j], v.nodes[j], includeHtml)
  }

  function ReportNode(n: EngineNode, includeHtml: bool): (r: ReportedNode)
    ensures NodeReports(r, n, includeHtml)
  {
    ReportedNode(n.impact, n.target, n.failureSummary, if includeHtml then Some(n.html) else None)
  }

  function ReportViolation(v: RuleResult, includeHtml: bool): (r: ReportedViolation)
    ensures ViolationReports(r, v, includeHtml)
  {
    ReportedViolation(
      v.id, v.impact, v.description, v.helpUrl,
      seq(|v.nodes|, j requires 0 <= j < |v.nodes| => ReportNode(v.nodes[j], includeHtml)))
  }

  function ReportViolations(vs: seq<RuleResult>, includeHtml: bool): (r: seq<ReportedViolation>)
    ensures |r| == |vs|
    ensures forall i :: 0 <= i < |r| ==> ViolationReports(r[i], vs[i], includeHtml)
  {
    seq(|vs|, i requires 0 <= i < |vs| => ReportViolation(vs[i], includeHtml))
  }

  /**
   * `performA11yScan` once the engine has answered: the first
   * `ResultLimit(o)` violations, projected, and a summary whose counts are
   * those of the whole engine run.
   */
  function PerformScan(o: ScanOptions, engine: EngineResult, timestamp: string): (r: ScanReport)
    ensures r.summary.timestamp == timestamp
    ensures r.summary.violationsCount == |engine.violations|
    ensures r.summary.passesCount == |engine.passes|
    ensures r.summary.incompleteCount == |engine.incomplete|
    ensures |r.violations| <= |engine.violations|
    ensures ValidOptions(o) ==> |r.violations| == Min(|engine.violations|, ResultLimit(o))
    ensures forall i :: 0 <= i < |r.violations| ==>
      ViolationReports(r.violations[i], engine.violations[i], TruthyBool(o.includeHtml))
  {
    var kept := SliceTo(engine.violations, ResultLimit(o));
    ScanReport(
      ScanSummary(timestamp, |engine.violations|, |engine.passes|, |engine.incomplete|),
      ReportViolations(kept, TruthyBool(o.includeHtml)))
  }

  // ---------------------------------------------------------------------
  // Properties of the normalisation
  // ---------------------------------------------------------------------

  /** `NodeReports` pins a node down completely. */
  lemma NodeReportsUnique(r1: ReportedNode, r2: ReportedNode, n: EngineNode, includeHtml: bool)
    requires NodeReports(r1, n, includeHtml) && NodeReports(r2, n, includeHtml)
    ensures r1 == r2
  {
  }

  /** `ViolationReports` pins a violation down completely. */
  lemma ViolationReportsUnique(r1: ReportedViolation, r2: ReportedViolation, v: RuleResult, includeHtml: bool)
    requires ViolationReports(r1, v, includeHtml) && ViolationReports(r2, v, includeHtml)
    ensures r1 == r2
  {
    forall j | 0 <= j < |r1.nodes|
      ensures r1.nodes[j] == r2.nodes[j]
    {
      NodeReportsUnique(r1.nodes[j], r2.nodes[j], v.nodes[j], includeHtml);
    }
  }

  /**
   * The returned violations are exactly the projection of the first
   * `min(|violations|, limit)` engine violations, in their original order.
   */
  lemma ScanKeepsPrefix(o: ScanOptions, engine: EngineResult, timestamp: string)
    requires ValidOptions(o)
    ensures var k := Min(|engine.violations|, ResultLimit(o));
      PerformScan(o, engine, timestamp).violations
        == ReportViolations(engine.violations[..k], TruthyBool(o.includeHtml))
  {
    var r := PerformScan(o, engine, timestamp).violations;
    var k := Min(|engine.violations|, ResultLimit(o));
    var expected := ReportViolations(engine.violations[..k], TruthyBool(o.includeHtml));
    assert |r| == k == |expected|;
    forall i | 0 <= i < k
      ensures r[i] == expected[i]
    {
      ViolationReportsUnique(r[i], expected[i], engine.violations[i], TruthyBool(o.includeHtml));
    }
  }

  /** Truncation never reaches the summary: whatever `maxResults` is, the counts agree. */
  lemma SummaryIgnoresLimit(o1: ScanOptions, o2: ScanOptions, engine: EngineResult, timestamp: string)
    ensures PerformScan(o1, engine, timestamp).summary == PerformScan(o2, engine, timestamp).summary
  {
  }

  /** A scan that returns fewer violations than the engine found still reports the full count. */
  lemma TruncatedScanReportsFullCount(o: ScanOptions, engine: EngineResult, timestamp: string)
    requires ValidOptions(o) && |engine.violations| > ResultLimit(o)
    ensures var r := PerformScan(o, engine, timestamp);
      |r.violations| == ResultLimit(o) < r.summary.violationsCount
  {
  }

  /** Drops every node's HTML snippet. */
  function StripHtml(vs: seq<ReportedViolation>): (r: seq<ReportedViolation>)
    ensures |r| == |vs|
  {
    seq(|vs|, i requires 0 <= i < |vs| =>
      vs[i].(nodes := seq(|vs[i].nodes|, j requires 0 <= j < |vs[i].nodes| => vs[i].nodes[j].(html := None))))
  }

  /**
   * `includeHtml` adds the snippets and changes nothing else: a scan with
   * them, stripped, is the scan without them.
   */
  lemma IncludeHtmlOnlyAddsSnippets(o: ScanOptions, engine: EngineResult, timestamp: string)
    ensures
      var with := PerformScan(o.(includeHtml := Some(true)), engine, timestamp);
      var without := PerformScan(o.(includeHtml := Some(false)), engine, timestamp);
      with.summary == without.summary && StripHtml(with.violations) == without.violations
  {
    var with := PerformScan(o.(includeHtml := Some(true)), engine, timestamp);
    var without := PerformScan(o.(includeHtml := Some(false)), engine, timestamp);
    var stripped := StripHtml(with.violations);
    assert ResultLimit(o.(includeHtml := Some(true))) == ResultLimit(o.(includeHtml := Some(false)));
    assert |with.violations| == |without.violations|;
    forall i | 0 <= i < |stripped|
      ensures stripped[i] == without.violations[i]
    {
      assert ViolationReports(stripped[i], engine.violations[i], false);
      ViolationReportsUnique(stripped[i], without.violations[i], engine.violations[i], false);
    }
  }
}
