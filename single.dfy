/**
 * The scan-url and scan-html handlers (src/tools/tools.ts:243-370): launch a
 * browser, open one context with the resolved viewport, load the target (by
 * navigation or by injecting the markup), wait if asked, run the scan, and
 * close the browser in a `finally`. Every failure becomes an error text with
 * the handler's own prefix.
 *
 * `browser.newContext` sits before the `try` whose `finally` closes the
 * browser, so a rejected context leaves the browser running. The handler as
 * written keeps that; `ScanPage` is the same handler with the context
 * creation moved inside the `try`.
 */
module SingleScan {
  import opened Wrappers
  import opened Schema
  import opened Scan
  import opened Browser

  /** The error text's prefix (tools.ts:298, 362). */
  function ErrorPrefix(t: ScanTarget): string
  {
    match t
    case Url(_) => "Error scanning URL: "
    case Html(_) => "Error scanning HTML content: "
  }

  /**
   * What scan-url / scan-html answers, given the browser's behaviour: a
   * rejection of the launch, of the context, or how the page went.
   */
  function SingleSpec(input: ScanInput, isUrl: string -> bool, launchFailure: Option<string>,
                      contextFailure: Option<string>, page: PageOutcome): Response<ScanReport>
  {
    var issues := ScanIssues(input, isUrl);
    if issues != [] then Rejected(issues)
    else if launchFailure.Some? then ToolError(ErrorPrefix(input.target) + launchFailure.value)
    else LaunchedSpec(input, contextFailure, page)
  }

  /** The answer once the browser is up. */
  function LaunchedSpec(input: ScanInput, contextFailure: Option<string>, page: PageOutcome): Response<ScanReport>
  {
    var prefix := ErrorPrefix(input.target);
    if contextFailure.Some? then ToolError(prefix + contextFailure.value)
    else match page
      case Scanned(engine, timestamp) => Payload(PerformScan(input.options, engine, timestamp))
      case LoadFails(m) => ToolError(prefix + m)
      case EngineFails(m) => ToolError(prefix + m)
  }

  /** The page's events once the context is open. */
  ghost function PageTrace(input: ScanInput, page: PageOutcome): seq<Event>
  {
    PageEvents(input.target, PostLoadWait(input.options), ActiveTags(input.options), page)
  }

  /** The events when the context is created: the page's, then the browser's close. */
  ghost function OpenedTrace(input: ScanInput, page: PageOutcome): seq<Event>
  {
    [Launched, ContextOpened(ResolveViewport(input.options))] + PageTrace(input, page) + [BrowserClosed]
  }

  /** The browser events of the handler as written: nothing closes the browser when the context fails. */
  ghost function SingleTraceAsWritten(input: ScanInput, isUrl: string -> bool, launchFailure: Option<string>,
                                      contextFailure: Option<string>, page: PageOutcome): seq<Event>
  {
    if ScanIssues(input, isUrl) != [] || launchFailure.Some? then []
    else if contextFailure.Some? then [Launched]
    else OpenedTrace(input, page)
  }

  /** The browser events once the context creation is inside the `try`. */
  ghost function SingleTrace(input: ScanInput, isUrl: string -> bool, launchFailure: Option<string>,
                             contextFailure: Option<string>, page: PageOutcome): seq<Event>
  {
    if ScanIssues(input, isUrl) != [] || launchFailure.Some? then []
    else if contextFailure.Some? then [Launched, BrowserClosed]
    else OpenedTrace(input, page)
  }

  /** The page part shared by both handlers: load, wait, scan, close the browser. */
  method RunAndClose(browser: Browser, input: ScanInput, page: PageOutcome) returns (response: Response<ScanReport>)
    requires browser.Valid() && browser.connected && browser.openContexts > 0
    modifies browser
    ensures browser.Valid() && !browser.connected && browser.openContexts == 0
    ensures browser.trace == old(browser.trace) + PageTrace(input, page) + [BrowserClosed]
    ensures page.Scanned? ==> response == Payload(PerformScan(input.options, page.engine, page.timestamp))
    ensures !page.Scanned? ==> response == ToolError(ErrorPrefix(input.target) + page.message)
  {
    var o := input.options;
    var result := browser.RunPage(input.target, PostLoadWait(o), ActiveTags(o), page);
    browser.Close();  // the `finally`
    match result
    case Scanned(engine, timestamp) => response := Payload(PerformScan(o, engine, timestamp));
    case LoadFails(m) => response := ToolError(ErrorPrefix(input.target) + m);
    case EngineFails(m) => response := ToolError(ErrorPrefix(input.target) + m);
  }

  /** The handler as written (tools.ts:249-303, 316-367). */
  method ScanPageAsWritten(input: ScanInput, isUrl: string -> bool, launchFailure: Option<string>,
                           contextFailure: Option<string>, page: PageOutcome)
    returns (response: Response<ScanReport>, ghost trace: seq<Event>)
    ensures response == SingleSpec(input, isUrl, launchFailure, contextFailure, page)
    ensures trace == SingleTraceAsWritten(input, isUrl, launchFailure, contextFailure, page)
  {
    var issues := ScanIssues(input, isUrl);
    if issues != [] {
      return Rejected(issues), [];
    }
    if launchFailure.Some? {
      return ToolError(ErrorPrefix(input.target) + launchFailure.value), [];
    }
    response, trace := LaunchedScanAsWritten(input, contextFailure, page);
  }

  /** From `chromium.launch` on, as written: a rejected context goes straight to the outer `catch`. */
  method LaunchedScanAsWritten(input: ScanInput, contextFailure: Option<string>, page: PageOutcome)
    returns (response: Response<ScanReport>, ghost trace: seq<Event>)
    ensures response == LaunchedSpec(input, contextFailure, page)
    ensures trace == if contextFailure.Some? then [Launched] else OpenedTrace(input, page)
  {
    var browser := new Browser.Launch();
    var failed := browser.NewContext(ResolveViewport(input.options), contextFailure);
    if failed.Some? {
      return ToolError(ErrorPrefix(input.target) + failed.value), browser.trace;
    }
    response := RunAndClose(browser, input, page);
    trace := browser.trace;
  }

  /** The handler with `browser.newContext` inside the `try` that closes the browser. */
  method ScanPage(input: ScanInput, isUrl: string -> bool, launchFailure: Option<string>,
                  contextFailure: Option<string>, page: PageOutcome)
    returns (response: Response<ScanReport>, ghost trace: seq<Event>)
    ensures response == SingleSpec(input, isUrl, launchFailure, contextFailure, page)
    ensures trace == SingleTrace(input, isUrl, launchFailure, contextFailure, page)
  {
    var issues := ScanIssues(input, isUrl);
    if issues != [] {
      return Rejected(issues), [];
    }
    if launchFailure.Some? {
      return ToolError(ErrorPrefix(input.target) + launchFailure.value), [];
    }
    response, trace := LaunchedScan(input, contextFailure, page);
  }

  /** From `chromium.launch` on, with the `finally` also covering the context's creation. */
  method LaunchedScan(input: ScanInput, contextFailure: Option<string>, page: PageOutcome)
    returns (response: Response<ScanReport>, ghost trace: seq<Event>)
    ensures response == LaunchedSpec(input, contextFailure, page)
    ensures trace == if contextFailure.Some? then [Launched, BrowserClosed] else OpenedTrace(input, page)
  {
    var browser := new Browser.Launch();
    var failed := browser.NewContext(ResolveViewport(input.options), contextFailure);
    if failed.Some? {
      browser.Close();
      return ToolError(ErrorPrefix(input.target) + failed.value), browser.trace;
    }
    response := RunAndClose(browser, input, page);
    trace := browser.trace;
  }

  // ---------------------------------------------------------------------
  // Properties
  // ---------------------------------------------------------------------

  /**
   * A scan succeeds exactly when the parameters pass, the browser, the
   * context and the page all do, and then it answers the normalised report.
   */
  lemma SingleScanSucceedsIffScanned(input: ScanInput, isUrl: string -> bool, launchFailure: Option<string>,
                                     contextFailure: Option<string>, page: PageOutcome)
    ensures var r := SingleSpec(input, isUrl, launchFailure, contextFailure, page);
      && (r.Payload? <==>
            ValidTarget(input.target, isUrl) && ValidOptions(input.options)
            && launchFailure.None? && contextFailure.None? && page.Scanned?)
      && (r.Payload? ==> r.value == PerformScan(input.options, page.engine, page.timestamp))
      && (r.Rejected? <==> !(ValidTarget(input.target, isUrl) && ValidOptions(input.options)))
  {
  }

  /** Empty HTML is refused before any browser is launched. */
  lemma EmptyHtmlRejected(options: ScanOptions, isUrl: string -> bool, launchFailure: Option<string>,
                          contextFailure: Option<string>, page: PageOutcome)
    ensures var input := ScanInput(Html(""), options);
      && Issue([Key("html")], EmptyHtml) in SingleSpec(input, isUrl, launchFailure, contextFailure, page).issues
      && SingleTraceAsWritten(input, isUrl, launchFailure, contextFailure, page) == []
  {
    var input := ScanInput(Html(""), options);
    assert ScanIssues(input, isUrl)[0] == Issue([Key("html")], EmptyHtml);
  }

  /** Once a context is open, the page's events keep the automaton in that context. */
  lemma OpenedTraceIsShut(input: ScanInput, page: PageOutcome)
    ensures var t := [Launched, ContextOpened(ResolveViewport(input.options))] + PageTrace(input, page) + [BrowserClosed];
      && Run(Unlaunched, t) == Shut
      && Count(t, Launched) == 1 && Count(t, BrowserClosed) == 1
      && t[|t| - 1] == BrowserClosed
  {
    var head := [Launched, ContextOpened(ResolveViewport(input.options))];
    var pageEvents := PageTrace(input, page);
    var t := head + pageEvents + [BrowserClosed];
    PageStaysInContext(input.target, PostLoadWait(input.options), ActiveTags(input.options), page);
    RunAppend(Unlaunched, head, pageEvents);
    RunAppend(Unlaunched, head + pageEvents, [BrowserClosed]);
    ShutAccounting(Unlaunched, t);
  }

  /**
   * Finding: when the context cannot be created, the handler as written
   * answers an error and leaves the browser launched and never closed.
   */
  lemma ContextFailureLeaksBrowser(input: ScanInput, isUrl: string -> bool, message: string, page: PageOutcome)
    requires ScanIssues(input, isUrl) == []
    ensures SingleSpec(input, isUrl, None, Some(message), page).ToolError?
    ensures var t := SingleTraceAsWritten(input, isUrl, None, Some(message), page);
      Run(Unlaunched, t) == Idle && Count(t, Launched) == 1 && Count(t, BrowserClosed) == 0
  {
  }

  /** As written, the browser is released on every path on which the context was created. */
  lemma AsWrittenReleasesWhenContextOpens(input: ScanInput, isUrl: string -> bool, page: PageOutcome)
    requires ScanIssues(input, isUrl) == []
    ensures var t := SingleTraceAsWritten(input, isUrl, None, None, page);
      Run(Unlaunched, t) == Shut && Count(t, BrowserClosed) == 1
  {
    OpenedTraceIsShut(input, page);
  }

  /**
   * With the context creation inside the `try`, every launched browser is
   * closed exactly once, as the last event, whatever fails.
   */
  lemma ScanPageReleasesBrowser(input: ScanInput, isUrl: string -> bool, contextFailure: Option<string>, page: PageOutcome)
    requires ScanIssues(input, isUrl) == []
    ensures var t := SingleTrace(input, isUrl, None, contextFailure, page);
      && Run(Unlaunched, t) == Shut
      && Count(t, Launched) == 1 && Count(t, BrowserClosed) == 1
      && t[|t| - 1] == BrowserClosed
      && forall k :: 0 <= k <= |t| ==> 0 <= OpenAfter(t[..k]) <= 1
  {
    var t := SingleTrace(input, isUrl, None, contextFailure, page);
    if contextFailure.None? {
      OpenedTraceIsShut(input, page);
    } else {
      assert t == [Launched, BrowserClosed];
      assert Run(Unlaunched, t) == Run(Idle, [BrowserClosed]) == Shut;
      ShutAccounting(Unlaunched, t);
    }
    NeverTwoContexts(t);
  }
}
