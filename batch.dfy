/**
 * The scan-batch handler (src/tools/tools.ts:375-466): one browser for the
 * whole call, then for each URL in order a fresh context, a scan, and the
 * context's close. A failure in navigation or analysis is recorded in that
 * URL's entry and the loop goes on; a failure of `browser.newContext`, which
 * sits outside the per-URL `try`, escapes the loop and turns the whole call
 * into an error, after the browser has been closed.
 */
module Batch {
  import opened Wrappers
  import opened Schema
  import opened Scan
  import opened Browser

  /** What the browser does for one URL. */
  datatype UrlOutcome =
    | NoContext(message: string)  // `browser.newContext` rejects
    | Page(page: PageOutcome)     // a context was opened; how the page went

  /** One element of `results`: `{ url, success, ...result }` or `{ url, success, error }`. */
  datatype BatchEntry = BatchEntry(
    url: string,
    success: bool,
    summary: Option<ScanSummary>,
    violations: Option<seq<ReportedViolation>>,
    error: Option<string>)

  const BatchErrorPrefix: string := "Error during batch scan: "

  /** The entry pushed for `url` once its page has run (tools.ts:416, 423-427). */
  function Entry(o: ScanOptions, url: string, p: PageOutcome): BatchEntry
  {
    match p
    case Scanned(engine, timestamp) =>
      var r := PerformScan(o, engine, timestamp);
      BatchEntry(url, true, Some(r.summary), Some(r.violations), None)
    case LoadFails(m) => BatchEntry(url, false, None, None, Some(m))
    case EngineFails(m) => BatchEntry(url, false, None, None, Some(m))
  }

  lemma ConcatAssoc<T>(a: seq<T>, b: seq<T>, c: seq<T>)
    ensures a + (b + c) == (a + b) + c
  {
  }

  /**
   * A success entry carries the scan's summary and violations and no error;
   * a failure entry carries the page's message and neither of the others.
   */
  lemma EntryShape(o: ScanOptions, url: string, p: PageOutcome)
    ensures var e := Entry(o, url, p);
      && e.url == url
      && (e.success <==> p.Scanned?)
      && (e.success ==>
            && e.summary == Some(PerformScan(o, p.engine, p.timestamp).summary)
            && e.violations == Some(PerformScan(o, p.engine, p.timestamp).violations)
            && e.error.None?)
      && (!e.success ==> e.error == Some(p.message) && e.summary.None? && e.violations.None?)
      && ((e.summary.Some? && e.violations.Some?) != e.error.Some?)
  {
  }

  /** The index of the first URL whose context cannot be created, or the list length. */
  function FirstContextFailure(outcomes: seq<UrlOutcome>): (k: nat)
    ensures k <= |outcomes|
    ensures forall j :: 0 <= j < k ==> outcomes[j].Page?
    ensures k < |outcomes| ==> outcomes[k].NoContext?
    decreases |outcomes|
  {
    if outcomes == [] then 0
    else if outcomes[0].NoContext? then 0
    else 1 + FirstContextFailure(outcomes[1..])
  }

  /** The `results` array built from the first `n` URLs, appended to at the back as the loop does. */
  function Entries(o: ScanOptions, urls: seq<string>, outcomes: seq<UrlOutcome>, n: nat): (r: seq<BatchEntry>)
    requires n <= |urls| == |outcomes|
    requires forall j :: 0 <= j < n ==> outcomes[j].Page?
    ensures |r| == n
    ensures forall j :: 0 <= j < n ==> r[j] == Entry(o, urls[j], outcomes[j].page)
    decreases n
  {
    if n == 0 then []
    else Entries(o, urls, outcomes, n - 1) + [Entry(o, urls[n - 1], outcomes[n - 1].page)]
  }

  /** What scan-batch answers once the schema has accepted its parameters. */
  function LaunchedBatchSpec(o: ScanOptions, urls: seq<string>, launchFailure: Option<string>, outcomes: seq<UrlOutcome>)
    : Response<seq<BatchEntry>>
    requires |outcomes| == |urls|
  {
    var k := FirstContextFailure(outcomes);
    if launchFailure.Some? then ToolError(BatchErrorPrefix + launchFailure.value)
    else if k < |outcomes| then ToolError(BatchErrorPrefix + outcomes[k].message)
    else Payload(Entries(o, urls, outcomes, |outcomes|))
  }

  /** What scan-batch answers as written: its schema also demands the stray `url`. */
  function BatchSpecAsWritten(input: BatchInput, isUrl: string -> bool, launchFailure: Option<string>, outcomes: seq<UrlOutcome>)
    : Response<seq<BatchEntry>>
    requires |outcomes| == |input.urls|
  {
    var issues := BatchIssuesAsWritten(input, isUrl);
    if issues != [] then Rejected(issues)
    else LaunchedBatchSpec(input.options, input.urls, launchFailure, outcomes)
  }

  /** What scan-batch answers once its schema no longer demands `url`. */
  function BatchSpec(input: BatchInput, isUrl: string -> bool, launchFailure: Option<string>, outcomes: seq<UrlOutcome>)
    : Response<seq<BatchEntry>>
    requires |outcomes| == |input.urls|
  {
    var issues := BatchIssues(input, isUrl);
    if issues != [] then Rejected(issues)
    else LaunchedBatchSpec(input.options, input.urls, launchFailure, outcomes)
  }

  /** The browser events of one loop iteration. */
  ghost function IterationEvents(c: PageConfig, url: string, outcome: UrlOutcome): seq<Event>
  {
    match outcome
    case NoContext(_) => []
    case Page(p) => [ContextOpened(c.viewport)] + PageEvents(Url(url), c.wait, c.tags, p) + [ContextClosed]
  }

  /** The browser events of the first `n` loop iterations. */
  ghost function LoopEvents(c: PageConfig, urls: seq<string>, outcomes: seq<UrlOutcome>, n: nat): seq<Event>
    requires n <= |urls| == |outcomes|
  {
    if n == 0 then []
    else LoopEvents(c, urls, outcomes, n - 1) + IterationEvents(c, urls[n - 1], outcomes[n - 1])
  }

  /** Everything scan-batch as written does with the browser. */
  ghost function BatchTraceAsWritten(input: BatchInput, isUrl: string -> bool, launchFailure: Option<string>, outcomes: seq<UrlOutcome>)
    : seq<Event>
    requires |outcomes| == |input.urls|
  {
    if BatchIssuesAsWritten(input, isUrl) != [] || launchFailure.Some? then []
    else LaunchedTrace(ConfigOf(input.options), input.urls, outcomes)
  }

  /** Everything scan-batch does with the browser once its schema no longer demands `url`. */
  ghost function BatchTrace(input: BatchInput, isUrl: string -> bool, launchFailure: Option<string>, outcomes: seq<UrlOutcome>)
    : seq<Event>
    requires |outcomes| == |input.urls|
  {
    if BatchIssues(input, isUrl) != [] || launchFailure.Some? then []
    else LaunchedTrace(ConfigOf(input.options), input.urls, outcomes)
  }

  /** The events once the browser is up: the loop's, then the outer `finally`'s close. */
  ghost function LaunchedTrace(c: PageConfig, urls: seq<string>, outcomes: seq<UrlOutcome>): seq<Event>
    requires |urls| == |outcomes|
  {
    [Launched] + LoopEvents(c, urls, outcomes, FirstContextFailure(outcomes)) + [BrowserClosed]
  }

  /**
   * The handler as written (tools.ts:375-466), gated by the schema that
   * demands `url`. `outcomes[i]` is what the browser does for `urls[i]`;
   * `launchFailure` is a rejection of `chromium.launch`.
   */
  method ScanBatchAsWritten(input: BatchInput, isUrl: string -> bool, launchFailure: Option<string>, outcomes: seq<UrlOutcome>)
    returns (response: Response<seq<BatchEntry>>, ghost trace: seq<Event>)
    requires |outcomes| == |input.urls|
    ensures response == BatchSpecAsWritten(input, isUrl, launchFailure, outcomes)
    ensures trace == BatchTraceAsWritten(input, isUrl, launchFailure, outcomes)
  {
    var issues := BatchIssuesAsWritten(input, isUrl);
    if issues != [] {
      response, trace := Rejected(issues), [];
      return;
    }
    response, trace := LaunchedBatch(input.options, input.urls, launchFailure, outcomes);
  }

  /** The same handler behind the schema without the stray `url`. */
  method ScanBatch(input: BatchInput, isUrl: string -> bool, launchFailure: Option<string>, outcomes: seq<UrlOutcome>)
    returns (response: Response<seq<BatchEntry>>, ghost trace: seq<Event>)
    requires |outcomes| == |input.urls|
    ensures response == BatchSpec(input, isUrl, launchFailure, outcomes)
    ensures trace == BatchTrace(input, isUrl, launchFailure, outcomes)
  {
    var issues := BatchIssues(input, isUrl);
    if issues != [] {
      response, trace := Rejected(issues), [];
      return;
    }
    response, trace := LaunchedBatch(input.options, input.urls, launchFailure, outcomes);
  }

  /** From `chromium.launch` on: the loop, then the outer `finally`'s close. */
  method LaunchedBatch(o: ScanOptions, urls: seq<string>, launchFailure: Option<string>, outcomes: seq<UrlOutcome>)
    returns (response: Response<seq<BatchEntry>>, ghost trace: seq<Event>)
    requires |outcomes| == |urls|
    ensures response == LaunchedBatchSpec(o, urls, launchFailure, outcomes)
    ensures trace == if launchFailure.Some? then [] else LaunchedTrace(ConfigOf(o), urls, outcomes)
  {
    if launchFailure.Some? {
      response, trace := ToolError(BatchErrorPrefix + launchFailure.value), [];
      return;
    }
    var browser := new Browser.Launch();
    var results, escaped := ScanUrls(browser, o, ConfigOf(o), urls, outcomes);
    browser.Close();  // the outer `finally`
    trace := browser.trace;
    if escaped.Some? {
      response := ToolError(BatchErrorPrefix + escaped.value);
    } else {
      response := Payload(results);
    }
  }

  /**
   * The `for` loop over the URLs (tools.ts:391-431), appending to
   * `results`; `escaped` is the context rejection that leaves the loop.
   */
  method ScanUrls(browser: Browser, o: ScanOptions, c: PageConfig, urls: seq<string>, outcomes: seq<UrlOutcome>)
    returns (results: seq<BatchEntry>, escaped: Option<string>)
    requires |outcomes| == |urls|
    requires browser.Valid() && browser.connected && browser.openContexts == 0
    modifies browser
    ensures browser.Valid() && browser.connected && browser.openContexts == 0
    ensures browser.trace == old(browser.trace) + LoopEvents(c, urls, outcomes, FirstContextFailure(outcomes))
    ensures FirstContextFailure(outcomes) < |outcomes| ==>
      escaped == Some(outcomes[FirstContextFailure(outcomes)].message)
    ensures FirstContextFailure(outcomes) == |outcomes| ==>
      escaped.None? && results == Entries(o, urls, outcomes, |outcomes|)
  {
    ghost var start, k := browser.trace, FirstContextFailure(outcomes);
    results, escaped := [], None;
    var i := 0;
    assert browser.trace == start + LoopEvents(c, urls, outcomes, 0);
    while i < |urls|
      invariant 0 <= i <= k
      invariant browser.Valid() && browser.connected && browser.openContexts == 0
      invariant escaped.None? && results == Entries(o, urls, outcomes, i)
      invariant browser.trace == start + LoopEvents(c, urls, outcomes, i)
    {
      ghost var before := LoopEvents(c, urls, outcomes, i);
      var entry;
      entry, escaped := ScanOneUrl(browser, o, c, urls[i], outcomes[i]);
      if entry.None? {
        // the rejection leaves the loop with nothing recorded for this URL
        assert i == k;
        break;
      }
      assert outcomes[i].Page? && i < k;
      results := results + [entry.value];
      LoopStep(o, c, urls, outcomes, i);
      ConcatAssoc(start, before, IterationEvents(c, urls[i], outcomes[i]));
      i := i + 1;
    }
  }

  /** What one more successful iteration adds to the entries and to the events. */
  lemma LoopStep(o: ScanOptions, c: PageConfig, urls: seq<string>, outcomes: seq<UrlOutcome>, i: nat)
    requires i < FirstContextFailure(outcomes) && |urls| == |outcomes|
    ensures Entries(o, urls, outcomes, i + 1) == Entries(o, urls, outcomes, i) + [Entry(o, urls[i], outcomes[i].page)]
    ensures LoopEvents(c, urls, outcomes, i + 1) == LoopEvents(c, urls, outcomes, i) + IterationEvents(c, urls[i], outcomes[i])
  {
  }

  /**
   * One iteration of the loop: open a context (its rejection escapes),
   * run the page inside the inner `try`, record the entry, close the
   * context in the `finally`.
   */
  method ScanOneUrl(browser: Browser, o: ScanOptions, c: PageConfig, url: string, outcome: UrlOutcome)
    returns (entry: Option<BatchEntry>, escaped: Option<string>)
    requires browser.Valid() && browser.connected && browser.openContexts == 0
    modifies browser
    ensures browser.Valid() && browser.connected && browser.openContexts == 0
    ensures browser.trace == old(browser.trace) + IterationEvents(c, url, outcome)
    ensures outcome.NoContext? ==> escaped == Some(outcome.message) && entry.None? && browser.trace == old(browser.trace)
    ensures outcome.Page? ==> escaped.None? && entry == Some(Entry(o, url, outcome.page))
  {
    ghost var before := browser.trace;
    var failure := if outcome.NoContext? then Some(outcome.message) else None;
    escaped := browser.NewContext(c.viewport, failure);
    if escaped.Some? {
      entry := None;
      assert browser.trace == before + [];
    } else {
      var page := browser.RunPage(Url(url), c.wait, c.tags, outcome.page);
      entry := Some(Entry(o, url, page));
      browser.CloseContext();
      ghost var ctx, events := ContextOpened(c.viewport), PageEvents(Url(url), c.wait, c.tags, page);
      assert IterationEvents(c, url, outcome) == [ctx] + events + [ContextClosed];
      ConcatAssoc(before, [ctx], events);
      ConcatAssoc(before, [ctx] + events, [ContextClosed]);
    }
  }

  // ---------------------------------------------------------------------
  // What the handler promises
  // ---------------------------------------------------------------------

  /**
   * With no context failure, `results` has one entry per URL in input
   * order; each is a success with summary and violations, or a failure with
   * the page's message; and a failing URL does not stop any later one.
   */
  lemma OneEntryPerUrl(input: BatchInput, isUrl: string -> bool, outcomes: seq<UrlOutcome>)
    requires |outcomes| == |input.urls|
    requires BatchIssues(input, isUrl) == []
    requires forall j :: 0 <= j < |outcomes| ==> outcomes[j].Page?
    ensures var r := BatchSpec(input, isUrl, None, outcomes);
      && r.Payload?
      && |r.value| == |input.urls|
      && forall j :: 0 <= j < |input.urls| ==>
           && r.value[j].url == input.urls[j]
           && (r.value[j].success <==> outcomes[j].page.Scanned?)
           && (r.value[j].success ==> r.value[j].summary.Some? && r.value[j].violations.Some?)
           && (!r.value[j].success ==> r.value[j].error == Some(outcomes[j].page.message))
  {
    assert FirstContextFailure(outcomes) == |outcomes|;
    forall j | 0 <= j < |input.urls| {
      EntryShape(input.options, input.urls[j], outcomes[j].page);
    }
  }

  /**
   * Failure isolation: what happens to one URL's page changes that URL's
   * entry and no other.
   */
  lemma OutcomesAreIsolated(input: BatchInput, isUrl: string -> bool, outcomes: seq<UrlOutcome>, j: nat, p: PageOutcome)
    requires |outcomes| == |input.urls| && j < |outcomes|
    requires BatchIssues(input, isUrl) == []
    requires forall k :: 0 <= k < |outcomes| ==> outcomes[k].Page?
    ensures var before := BatchSpec(input, isUrl, None, outcomes);
      var after := BatchSpec(input, isUrl, None, outcomes[j := Page(p)]);
      && before.Payload? && after.Payload?
      && after.value[j] == Entry(input.options, input.urls[j], p)
      && forall k :: 0 <= k < |outcomes| && k != j ==> after.value[k] == before.value[k]
  {
    var changed := outcomes[j := Page(p)];
    assert FirstContextFailure(outcomes) == |outcomes|;
    assert FirstContextFailure(changed) == |changed|;
    assert BatchSpec(input, isUrl, None, outcomes) == Payload(Entries(input.options, input.urls, outcomes, |outcomes|));
    assert BatchSpec(input, isUrl, None, changed) == Payload(Entries(input.options, input.urls, changed, |changed|));
  }

  /** A context that cannot be created aborts the call, with that rejection's message. */
  lemma ContextFailureAbortsBatch(input: BatchInput, isUrl: string -> bool, outcomes: seq<UrlOutcome>, k: nat)
    requires |outcomes| == |input.urls| && k < |outcomes|
    requires BatchIssues(input, isUrl) == []
    requires outcomes[k].NoContext? && forall j :: 0 <= j < k ==> outcomes[j].Page?
    ensures BatchSpec(input, isUrl, None, outcomes) == ToolError(BatchErrorPrefix + outcomes[k].message)
  {
    FirstContextFailureIsFirst(outcomes, k);
  }

  lemma {:induction false} FirstContextFailureIsFirst(outcomes: seq<UrlOutcome>, k: nat)
    requires k < |outcomes| && outcomes[k].NoContext?
    requires forall j :: 0 <= j < k ==> outcomes[j].Page?
    ensures FirstContextFailure(outcomes) == k
    decreases k
  {
    if k > 0 {
      FirstContextFailureIsFirst(outcomes[1..], k - 1);
    }
  }

  /** More than twenty URLs, or none, are refused before the browser is launched. */
  lemma OversizedBatchRejectedBeforeLaunch(input: BatchInput, isUrl: string -> bool, launchFailure: Option<string>, outcomes: seq<UrlOutcome>)
    requires |outcomes| == |input.urls|
    requires |input.urls| > MaxBatchUrls || |input.urls| < MinBatchUrls
    ensures BatchSpecAsWritten(input, isUrl, launchFailure, outcomes).Rejected?
    ensures BatchTraceAsWritten(input, isUrl, launchFailure, outcomes) == []
    ensures BatchSpec(input, isUrl, launchFailure, outcomes).Rejected?
    ensures BatchTrace(input, isUrl, launchFailure, outcomes) == []
  {
  }

  /**
   * Exactly twenty well-formed URLs with valid options: the handler as
   * written accepts them exactly when a valid `url` comes along; without the
   * stray requirement they are accepted and the browser is launched.
   */
  lemma TwentyUrlsAccepted(input: BatchInput, isUrl: string -> bool, launchFailure: Option<string>, outcomes: seq<UrlOutcome>)
    requires |outcomes| == |input.urls| == MaxBatchUrls
    requires (forall j :: 0 <= j < |input.urls| ==> isUrl(input.urls[j])) && ValidOptions(input.options)
    ensures !BatchSpecAsWritten(input, isUrl, launchFailure, outcomes).Rejected? <==>
      input.url.Some? && isUrl(input.url.value)
    ensures !BatchSpec(input, isUrl, launchFailure, outcomes).Rejected?
    ensures launchFailure.None? ==> BatchTrace(input, isUrl, launchFailure, outcomes) != []
  {
  }

  /**
   * With a valid `url` alongside, the handler as written and the one
   * without the stray requirement answer alike and drive the browser alike.
   */
  lemma AsWrittenAgreesWhenUrlGiven(input: BatchInput, isUrl: string -> bool, launchFailure: Option<string>, outcomes: seq<UrlOutcome>)
    requires |outcomes| == |input.urls|
    requires input.url.Some? && isUrl(input.url.value)
    ensures BatchSpecAsWritten(input, isUrl, launchFailure, outcomes) == BatchSpec(input, isUrl, launchFailure, outcomes)
    ensures BatchTraceAsWritten(input, isUrl, launchFailure, outcomes) == BatchTrace(input, isUrl, launchFailure, outcomes)
  {
    AsWrittenIssuesWhenUrlGiven(input, isUrl);
  }

  lemma AsWrittenIssuesWhenUrlGiven(input: BatchInput, isUrl: string -> bool)
    requires input.url.Some? && isUrl(input.url.value)
    ensures BatchIssuesAsWritten(input, isUrl) == BatchIssues(input, isUrl)
  {
    DropEmpty(UrlListIssues(input.urls, isUrl), UrlFieldIssues(input.url, isUrl), OptionIssues(input.options));
  }

  lemma DropEmpty<T>(a: seq<T>, e: seq<T>, b: seq<T>)
    requires e == []
    ensures a + e + b == a + b
  {
  }

  /**
   * Finding: a batch of one well-formed URL sent without `url` is refused
   * by the handler as written before anything is launched; without the
   * stray requirement it is scanned.
   */
  lemma HandlerDemandsStrayUrl(isUrl: string -> bool, outcome: PageOutcome)
    requires isUrl("https://example.com")
    ensures var input := BatchInput(["https://example.com"], None, ScanOptions(None, None, None, None, None));
      && BatchSpecAsWritten(input, isUrl, None, [Page(outcome)]).Rejected?
      && Issue([Key("url")], Required) in BatchSpecAsWritten(input, isUrl, None, [Page(outcome)]).issues
      && BatchTraceAsWritten(input, isUrl, None, [Page(outcome)]) == []
      && BatchSpec(input, isUrl, None, [Page(outcome)]).Payload?
      && BatchTrace(input, isUrl, None, [Page(outcome)]) != []
  {
    var input := BatchInput(["https://example.com"], None, ScanOptions(None, None, None, None, None));
    BatchSchemaDemandsStrayUrl(isUrl);
    assert FirstContextFailure([Page(outcome)]) == 1 by {
      assert [Page(outcome)][1..] == [];
    }
  }

  // ---------------------------------------------------------------------
  // Resources
  // ---------------------------------------------------------------------

  /** Each iteration closes the context it opened, so the loop starts and ends with none open. */
  lemma {:induction false} LoopEventsStayIdle(c: PageConfig, urls: seq<string>, outcomes: seq<UrlOutcome>, n: nat)
    requires n <= |urls| == |outcomes|
    ensures Run(Idle, LoopEvents(c, urls, outcomes, n)) == Idle
    decreases n
  {
    if n > 0 {
      LoopEventsStayIdle(c, urls, outcomes, n - 1);
      RunAppend(Idle, LoopEvents(c, urls, outcomes, n - 1), IterationEvents(c, urls[n - 1], outcomes[n - 1]));
      IterationStaysIdle(c, urls[n - 1], outcomes[n - 1]);
    }
  }

  lemma IterationStaysIdle(c: PageConfig, url: string, outcome: UrlOutcome)
    ensures Run(Idle, IterationEvents(c, url, outcome)) == Idle
  {
    if outcome.Page? {
      var vp, page := ContextOpened(c.viewport), PageEvents(Url(url), c.wait, c.tags, outcome.page);
      PageStaysInContext(Url(url), c.wait, c.tags, outcome.page);
      RunAppend(Idle, [vp], page);
      RunAppend(Idle, [vp] + page, [ContextClosed]);
    }
  }

  /**
   * Whenever the browser is launched, the automaton accepts the whole
   * trace: one launch first, one context at a time and each closed before
   * the next opens, and one browser close, last, on the success path and
   * when a context failure escapes the loop alike.
   */
  lemma BatchReleasesBrowser(input: BatchInput, isUrl: string -> bool, outcomes: seq<UrlOutcome>)
    requires |outcomes| == |input.urls|
    requires BatchIssues(input, isUrl) == []
    ensures var t := BatchTrace(input, isUrl, None, outcomes);
      && Run(Unlaunched, t) == Shut
      && t[0] == Launched && t[|t| - 1] == BrowserClosed
      && Count(t, Launched) == 1 && Count(t, BrowserClosed) == 1
      && forall k :: 0 <= k <= |t| ==> 0 <= OpenAfter(t[..k]) <= 1
  {
    LaunchedTraceIsShut(ConfigOf(input.options), input.urls, outcomes);
  }

  lemma LaunchedTraceIsShut(c: PageConfig, urls: seq<string>, outcomes: seq<UrlOutcome>)
    requires |urls| == |outcomes|
    ensures var t := LaunchedTrace(c, urls, outcomes);
      && Run(Unlaunched, t) == Shut
      && t[0] == Launched && t[|t| - 1] == BrowserClosed
      && Count(t, Launched) == 1 && Count(t, BrowserClosed) == 1
      && forall k :: 0 <= k <= |t| ==> 0 <= OpenAfter(t[..k]) <= 1
  {
    LoopEventsStayIdle(c, urls, outcomes, FirstContextFailure(outcomes));
    SessionIsShut(LoopEvents(c, urls, outcomes, FirstContextFailure(outcomes)));
  }

  lemma {:induction false} LoopOpensOneContextPerAttempt(c: PageConfig, urls: seq<string>, outcomes: seq<UrlOutcome>, n: nat)
    requires n <= |urls| == |outcomes|
    requires forall j :: 0 <= j < n ==> outcomes[j].Page?
    ensures Count(LoopEvents(c, urls, outcomes, n), ContextOpened(c.viewport)) == n
    decreases n
  {
    if n > 0 {
      LoopOpensOneContextPerAttempt(c, urls, outcomes, n - 1);
      CountAppend(LoopEvents(c, urls, outcomes, n - 1), IterationEvents(c, urls[n - 1], outcomes[n - 1]), ContextOpened(c.viewport));
      IterationOpensOneContext(c, urls[n - 1], outcomes[n - 1].page);
    }
  }

  lemma IterationOpensOneContext(c: PageConfig, url: string, p: PageOutcome)
    ensures Count(IterationEvents(c, url, Page(p)), ContextOpened(c.viewport)) == 1
  {
    var vp, page := ContextOpened(c.viewport), PageEvents(Url(url), c.wait, c.tags, p);
    PageOpensNoContext(Url(url), c.wait, c.tags, p, c.viewport);
    CountAppend([vp], page, vp);
    CountAppend([vp] + page, [ContextClosed], vp);
  }

  lemma PageOpensNoContext(target: ScanTarget, wait: Option<int>, tags: seq<string>, outcome: PageOutcome, s: Size)
    ensures Count(PageEvents(target, wait, tags, outcome), ContextOpened(s)) == 0
  {
    var w := WaitEvents(wait);
    match outcome
    case LoadFails(_) =>
    case EngineFails(_) =>
      CountAppend([Loaded(target)], w, ContextOpened(s));
    case Scanned(_, _) =>
      CountAppend([Loaded(target)], w, ContextOpened(s));
      CountAppend([Loaded(target)] + w, [RulesRun(tags)], ContextOpened(s));
  }

  /**
   * One context is opened per URL up to the first context failure, each
   * with the viewport the options resolve to; with no failure, one per URL.
   */
  lemma ContextsOpenedUntilFailure(input: BatchInput, isUrl: string -> bool, outcomes: seq<UrlOutcome>)
    requires |outcomes| == |input.urls|
    requires BatchIssues(input, isUrl) == []
    ensures Count(BatchTrace(input, isUrl, None, outcomes), ContextOpened(ResolveViewport(input.options)))
      == FirstContextFailure(outcomes)
    ensures (forall j :: 0 <= j < |outcomes| ==> outcomes[j].Page?) ==>
      Count(BatchTrace(input, isUrl, None, outcomes), ContextOpened(ResolveViewport(input.options))) == |input.urls|
  {
    LaunchedTraceContexts(ConfigOf(input.options), input.urls, outcomes);
  }

  lemma LaunchedTraceContexts(c: PageConfig, urls: seq<string>, outcomes: seq<UrlOutcome>)
    requires |urls| == |outcomes|
    ensures Count(LaunchedTrace(c, urls, outcomes), ContextOpened(c.viewport)) == FirstContextFailure(outcomes)
  {
    var vp := ContextOpened(c.viewport);
    var loop := LoopEvents(c, urls, outcomes, FirstContextFailure(outcomes));
    LoopOpensOneContextPerAttempt(c, urls, outcomes, FirstContextFailure(outcomes));
    CountAppend([Launched], loop, vp);
    CountAppend([Launched] + loop, [BrowserClosed], vp);
  }

  /**
   * The call creates exactly as many contexts as there are URLs before the
   * first rejection, whatever their viewport, and every one of them gets
   * the viewport the options resolve to.
   */
  lemma EveryContextHasTheViewport(input: BatchInput, isUrl: string -> bool, outcomes: seq<UrlOutcome>)
    requires |outcomes| == |input.urls|
    requires BatchIssues(input, isUrl) == []
    ensures Opened(BatchTrace(input, isUrl, None, outcomes)) == FirstContextFailure(outcomes)
    ensures OpensOnly(BatchTrace(input, isUrl, None, outcomes), ResolveViewport(input.options))
  {
    var c := ConfigOf(input.options);
    LaunchedTraceOpened(c, input.urls, outcomes);
    LaunchedTraceContexts(c, input.urls, outcomes);
    AllCountedOpensOnly(LaunchedTrace(c, input.urls, outcomes), c.viewport);
  }

  lemma LaunchedTraceOpened(c: PageConfig, urls: seq<string>, outcomes: seq<UrlOutcome>)
    requires |urls| == |outcomes|
    ensures Opened(LaunchedTrace(c, urls, outcomes)) == FirstContextFailure(outcomes)
  {
    var loop := LoopEvents(c, urls, outcomes, FirstContextFailure(outcomes));
    LoopOpensOnePerAttempt(c, urls, outcomes, FirstContextFailure(outcomes));
    OpenedAppend([Launched], loop);
    OpenedAppend([Launched] + loop, [BrowserClosed]);
  }

  /** n iterations that all get a context open n contexts in all. */
  lemma {:induction false} LoopOpensOnePerAttempt(c: PageConfig, urls: seq<string>, outcomes: seq<UrlOutcome>, n: nat)
    requires n <= |urls| == |outcomes|
    requires forall j :: 0 <= j < n ==> outcomes[j].Page?
    ensures Opened(LoopEvents(c, urls, outcomes, n)) == n
    decreases n
  {
    if n > 0 {
      LoopOpensOnePerAttempt(c, urls, outcomes, n - 1);
      OpenedAppend(LoopEvents(c, urls, outcomes, n - 1), IterationEvents(c, urls[n - 1], outcomes[n - 1]));
      IterationOpensOne(c, urls[n - 1], outcomes[n - 1].page);
    }
  }

  lemma IterationOpensOne(c: PageConfig, url: string, p: PageOutcome)
    ensures Opened(IterationEvents(c, url, Page(p))) == 1
  {
    var vp, page := ContextOpened(c.viewport), PageEvents(Url(url), c.wait, c.tags, p);
    PageOpensNone(Url(url), c.wait, c.tags, p);
    OpenedAppend([vp], page);
    OpenedAppend([vp] + page, [ContextClosed]);
  }

  lemma PageOpensNone(target: ScanTarget, wait: Option<int>, tags: seq<string>, outcome: PageOutcome)
    ensures Opened(PageEvents(target, wait, tags, outcome)) == 0
  {
    var w := WaitEvents(wait);
    match outcome
    case LoadFails(_) =>
    case EngineFails(_) =>
      OpenedAppend([Loaded(target)], w);
    case Scanned(_, _) =>
      OpenedAppend([Loaded(target)], w);
      OpenedAppend([Loaded(target)] + w, [RulesRun(tags)]);
  }
}
