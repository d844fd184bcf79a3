# Accessibility scanning tools: a Dafny model

This project models the tool handlers of an MCP server that runs
accessibility scans. The server drives a headless Chromium through
Playwright and the axe-core rule engine. All five tools live in one source
file, `src/tools/tools.ts`.

- **scan-url, scan-html.** Launch a browser and open one context with the
  requested viewport. Navigate to the URL, or inject the HTML. Optionally
  wait, run the rule engine, and return the normalised result.
- **scan-batch.** Launch one browser for the whole call. For each URL, in
  order, open a fresh context, scan, and close that context. Each URL gets
  its own entry: a success or a failure.
- **summarize-violations.** Tally a list of violations by impact, and
  condense each violation to its `nodesAffected` count.
- **write-violations-report.** Compute the same summary and write it to
  `<outputDirectory>/accessibility-test-results/<uuid>.sarif`.

The model is split into one module per concern:

| file | module | what it holds |
|---|---|---|
| `wrappers.dfy` | `Wrappers` | `Option`, for the source's optional fields |
| `schema.dfy` | `Schema` | the zod parameter schemas as issue lists (empty exactly when accepted); the tool response type |
| `scan.dfy` | `Scan` | the configuration fallbacks and `performA11yScan`'s normalisation, as pure functions |
| `browser.dfy` | `Browser` | a `Browser` class with a ghost event trace, and a lifecycle automaton that judges traces |
| `batch.dfy` | `Batch` | the scan-batch handler as a method with a loop, its specification function, and its resource lemmas |
| `single.dfy` | `SingleScan` | scan-url / scan-html as written and as corrected, with their traces |
| `summary.dfy` | `Summary` | the tally fold and the condensed list |
| `report.dfy` | `Report` | a `FileSystem` class and the write-violations-report handler |

How the outside world enters the model:

- **Playwright and axe are oracles.** Each browser call that can fail gets
  its rejection as an input (`launchFailure`, `contextFailure`,
  `UrlOutcome.NoContext`). How a page went is a `PageOutcome`: the load
  failed, the load-state wait or the analysis failed, or the engine
  answered with an `EngineResult`.
- **URL syntax is a parameter.** `z.string().url()` is the caller-supplied
  predicate `isUrl`.
- **Other values are parameters too.** This covers the output directory, the
  uuid, the timestamp and the JSON serialiser (`render`).
- **Tool answers keep their structure.** An answer is
  `Response<T>`: `Payload(value)` for the object the tool serialises,
  `ToolError(text)` for an `isError` answer, and `Rejected(issues)` when
  the schema refuses the parameters.

Every `.default(...)` in the schemas is wrapped in `.optional()`, so
absent fields reach the handlers as `undefined`. The defaults that take
effect are the in-code fallbacks: `?? 1280`, `?? 720`, `|| 50`, and no
post-load wait at all. JavaScript truthiness is written out as
`TruthyString`, `TruthyNumber` and `TruthyBool`, and `slice` with a
negative end as `SliceTo`.

Two behaviours of the code that a reader might not expect:

- **scan-batch.** `browser.newContext` sits outside the per-URL `try`. A
  context that cannot be created therefore aborts the whole call with
  `Error during batch scan: …`. It is not isolated to one entry.
- **write-violations-report.** A failure to create the folder or to write
  the file gives `Error summarizing violations content: …`. The summary is
  not returned in that case.

Two handlers are modelled twice, once as written and once corrected (see
"## Findings"). scan-batch as written is gated by a schema that also
demands the scan-url `url` field (`Batch.ScanBatchAsWritten`).
`Batch.ScanBatch` is the same handler behind the corrected schema. Both
share the launched part, `Batch.LaunchedBatch`. scan-url and scan-html as
written can leave the browser running (`SingleScan.ScanPageAsWritten`).
`SingleScan.ScanPage` closes it on every path.

## Model

| member | source | states |
|---|---|---|
| Schema.PositiveIssues | src/tools/tools.ts:18-23 | no issue exactly when the number is absent or positive; otherwise one `NotPositive` issue at the field's path |
| Schema.EnumIssues | src/tools/tools.ts:36-48 | no issue exactly when the string is absent or one of the allowed literals; otherwise one `NotInEnum` issue |
| Schema.OptionIssues | src/tools/tools.ts:18-72 | the shared options are accepted exactly when `waitForPageLoad`, the viewport sizes and `maxResults` are positive or absent and `runOnly` is one of the eight literals; every issue is `NotPositive` or `NotInEnum` |
| Schema.TargetIssues | src/tools/tools.ts:14-80 | a URL target is accepted exactly when `isUrl` holds; an HTML target exactly when it is non-empty |
| Schema.ScanIssues | src/tools/tools.ts:14-136 | a scan-url / scan-html call is accepted exactly when its target and its options are |
| Schema.UrlElementIssues | src/tools/tools.ts:141-145 | no issue exactly when every element passes `isUrl`; each refused element has an `InvalidUrl` issue at its index |
| Schema.UrlListIssues | src/tools/tools.ts:140-148 | the URL list is accepted exactly when it has 1 to 20 elements, all of them URLs; an empty list has a `TooFewUrls` issue, a list over 20 a `TooManyUrls` issue |
| Schema.BatchIssuesAsWritten | src/tools/tools.ts:139-150 | the batch schema as written accepts exactly 1..20 valid URLs, valid options and a valid `url` field; a missing `url` gives a `Required` issue |
| Schema.BatchIssues | src/tools/tools.ts:139-150 | the corrected batch schema accepts exactly 1..20 valid URLs and valid options; over 20 and under 1 each give their own issue |
| Schema.BatchSchemaDemandsStrayUrl | src/tools/tools.ts:149 | a batch of one valid URL with no `url` field is refused as written and accepted once corrected |
| Schema.NodeIssues | src/tools/tools.ts:166-180 | no issue exactly when every node's impact is one of the four impacts |
| Schema.RecordIssues | src/tools/tools.ts:154-182 | no issue exactly when every violation's impact, and every node impact in it, is one of the four |
| Schema.SummaryIssues | src/tools/tools.ts:153-196 | the summarize input is accepted exactly when every record is valid and `format` is absent or one of the six literals |
| Scan.ActiveTags | src/tools/tools.ts:209-211 | exactly `[runOnly]` when a valid `runOnly` is given; exactly `wcag2a, wcag2aa, wcag21aa` when it is absent; for valid options, a non-empty list of allowed tags |
| Scan.ResultLimit | src/tools/tools.ts:216 | `maxResults` when set and non-zero, 50 when absent or zero; positive for valid options |
| Scan.ResolveViewport | src/tools/tools.ts:257-260 | each side is the given size, or 1280 / 720 when absent; positive for valid options |
| Scan.PostLoadWait | src/tools/tools.ts:270-272 | no wait when `waitForPageLoad` is absent (the schema's default is not applied); for valid options, the given wait |
| Scan.SliceTo | src/tools/tools.ts:216 | a prefix of the list, of JavaScript `slice(0, end)` length, also for a negative end |
| Scan.ReportNode | src/tools/tools.ts:222-227 | the node keeps impact, target and failure summary, and carries `html` exactly when `includeHtml` is set, with the engine's snippet |
| Scan.ReportViolation | src/tools/tools.ts:217-228 | id, impact, description and help URL kept; every node kept, in order, each projected as above |
| Scan.ReportViolations | src/tools/tools.ts:215-228 | one projected violation per engine violation, in order |
| Scan.PerformScan | src/tools/tools.ts:201-238 | summary counts are the full lengths of the engine's violations, passes and incomplete; at most as many violations as the engine found, exactly `min(found, limit)` for valid options; each is the projection of the engine violation at the same index |
| Scan.NodeReportsUnique | src/tools/tools.ts:222-227 | the node projection relation determines the returned node |
| Scan.ViolationReportsUnique | src/tools/tools.ts:217-228 | the violation projection relation determines the returned violation |
| Scan.ScanKeepsPrefix | src/tools/tools.ts:215-216 | the returned violations are exactly the projection of the first `min(found, limit)` engine violations, in their original order |
| Scan.SummaryIgnoresLimit | src/tools/tools.ts:230-235 | the summary does not depend on `maxResults` or any other option |
| Scan.TruncatedScanReportsFullCount | src/tools/tools.ts:215-235 | when the engine finds more than the limit, `limit` violations are returned and `violationsCount` is still the full, larger count |
| Scan.IncludeHtmlOnlyAddsSnippets | src/tools/tools.ts:226 | a scan with `includeHtml`, with its snippets stripped, equals the scan without it; the summaries agree |
| Browser.ShutAccounting | src/tools/tools.ts:255-291 | a trace the automaton ends in `Shut` launched once if it started unlaunched, closed the browser exactly once, and ends with that close |
| Browser.PhaseTracksOpenContexts | src/tools/tools.ts:392-430 | in an accepted trace, no context is open when the browser is idle and exactly one is open in a context |
| Browser.NeverTwoContexts | src/tools/tools.ts:392-430 | at no prefix of an accepted trace are two contexts open |
| Browser.SessionIsShut | src/tools/tools.ts:387-434 | launch, then events that leave at most one context open, then close: accepted, one launch first, one close last |
| Browser.PageStaysInContext | src/tools/tools.ts:264-278 | a page's events (load, wait, analysis) keep its context open in every outcome |
| Browser.PageKeepsOpenContexts | src/tools/tools.ts:264-278 | a page's events neither open nor close a context |
| Browser.Browser.Launch | src/tools/tools.ts:255 | a fresh connected browser with no context, whose trace is the launch; the handle is valid (its fields agree with its trace) |
| Browser.Browser.NewContext | src/tools/tools.ts:256-261 | returns the rejection if any; on success one more context is open and the trace records it with its viewport; on failure nothing changes; the handle stays valid |
| Browser.Browser.RunPage | src/tools/tools.ts:264-278 | returns the page's outcome and appends exactly that outcome's events; the handle stays valid |
| Browser.Browser.CloseContext | src/tools/tools.ts:428-430 | one context fewer, the close recorded; the handle stays valid |
| Browser.Browser.Close | src/tools/tools.ts:289-291 | the browser is disconnected, no context remains, the close recorded; the handle stays valid |
| Batch.EntryShape | src/tools/tools.ts:416-427 | an entry names its URL; it is a success exactly when the page was scanned, then carrying that scan's summary and violations and no error; otherwise the page's message and neither of the others |
| Batch.FirstContextFailure | src/tools/tools.ts:391-397 | the index of the first URL whose context is rejected (or the list length): every earlier URL got a context |
| Batch.Entries | src/tools/tools.ts:388-431 | one entry per URL so far, each the entry of that URL's page |
| Batch.LaunchedBatch | src/tools/tools.ts:387-465 | from the launch on: a launch rejection gives `Error during batch scan: ` and nothing in the trace; otherwise the answer is `LaunchedBatchSpec` and the trace launches, runs the loop and closes the browser |
| Batch.ScanBatchAsWritten | src/tools/tools.ts:375-466 | the handler as written: the answer is `BatchSpecAsWritten`, gated by the schema that demands `url`; the trace is `BatchTraceAsWritten`, empty when that schema refuses |
| Batch.ScanBatch | src/tools/tools.ts:375-466 | the corrected handler, gated by the schema without the stray `url`: the answer is `BatchSpec`, rejected by that schema, an error on a launch or context rejection, otherwise one entry per URL; the trace is `BatchTrace`, empty when nothing is launched |
| Batch.ScanUrls | src/tools/tools.ts:391-431 | the loop leaves the browser connected with no context open, appends the loop's events, escapes with the first context rejection, and otherwise builds `Entries` for every URL |
| Batch.ScanOneUrl | src/tools/tools.ts:392-430 | one iteration: a context rejection escapes with nothing recorded; otherwise the URL's entry, and the context opened and closed around the page |
| Batch.OneEntryPerUrl | src/tools/tools.ts:391-431 | with no context rejection: one entry per URL in input order; success with summary and violations exactly when scanned, otherwise the page's error; a failing URL stops no later one |
| Batch.OutcomesAreIsolated | src/tools/tools.ts:399-427 | changing what happens to one URL's page changes that URL's entry and no other |
| Batch.ContextFailureAbortsBatch | src/tools/tools.ts:392-463 | if the k-th context is the first rejected, the whole call answers `Error during batch scan: ` and that message |
| Batch.OversizedBatchRejectedBeforeLaunch | src/tools/tools.ts:146-147 | more than 20 URLs, or none, are rejected and nothing is launched, by the handler as written and by the corrected one |
| Batch.TwentyUrlsAccepted | src/tools/tools.ts:139-150 | 20 valid URLs with valid options: the handler as written accepts them exactly when a valid `url` comes along; the corrected handler accepts them and launches the browser |
| Batch.AsWrittenAgreesWhenUrlGiven | src/tools/tools.ts:139-150 | with a valid `url` alongside, the handler as written and the corrected one give the same answer and the same trace |
| Batch.AsWrittenIssuesWhenUrlGiven | src/tools/tools.ts:139-150 | with a valid `url` alongside, the schema as written reports exactly the corrected schema's issues |
| Batch.HandlerDemandsStrayUrl | src/tools/tools.ts:149 | a batch of one valid URL sent without `url`: the handler as written rejects it with a `Required` issue at `url` and launches nothing; the corrected handler scans it and launches the browser |
| Batch.LoopEventsStayIdle | src/tools/tools.ts:391-431 | every iteration closes the context it opened, so the loop starts and ends with no context open |
| Batch.IterationStaysIdle | src/tools/tools.ts:392-430 | one iteration's events take the browser from no context back to no context |
| Batch.BatchReleasesBrowser | src/tools/tools.ts:387-434 | once launched, the trace is accepted: one launch first, one close last, never two contexts open, both when the loop completes and when a context rejection escapes it |
| Batch.LaunchedTraceIsShut | src/tools/tools.ts:387-434 | the same for the events from the launch on, for any configuration |
| Batch.LoopOpensOneContextPerAttempt | src/tools/tools.ts:391-397 | n iterations that all get a context open n contexts with the configured viewport |
| Batch.IterationOpensOneContext | src/tools/tools.ts:392-397 | an iteration that gets a context opens exactly one |
| Batch.ContextsOpenedUntilFailure | src/tools/tools.ts:391-397 | the call opens one context per URL before the first rejection, with the resolved viewport; with no rejection, one per URL |
| Batch.LaunchedTraceContexts | src/tools/tools.ts:391-397 | the same count for the events from the launch on |
| Batch.EveryContextHasTheViewport | src/tools/tools.ts:391-397 | the call creates exactly one context per URL before the first rejection, counting contexts of any viewport, and every context it creates has the resolved viewport |
| Batch.LaunchedTraceOpened | src/tools/tools.ts:391-397 | from the launch on, the number of contexts of any viewport is the number of URLs before the first rejection |
| Batch.LoopOpensOnePerAttempt | src/tools/tools.ts:391-397 | n iterations that all get a context open n contexts in all |
| Browser.AllCountedOpensOnly | src/tools/tools.ts:392-397 | a trace whose contexts are all counted as ones with viewport v opens no context with another viewport |
| SingleScan.RunAndClose | src/tools/tools.ts:263-291 | page events then the browser's close are appended, leaving it disconnected with no context; the answer is the normalised report when scanned, otherwise the handler's error text with the page's message |
| SingleScan.ScanPageAsWritten | src/tools/tools.ts:249-303 | the answer is `SingleSpec` and the trace is the as-written one, which has no close when the context is rejected |
| SingleScan.LaunchedScanAsWritten | src/tools/tools.ts:255-303 | from the launch on, as written: a context rejection leaves only the launch in the trace |
| SingleScan.ScanPage | src/tools/tools.ts:249-303 | the answer is `SingleSpec` and the trace is the corrected one, which closes the browser on a context rejection too |
| SingleScan.LaunchedScan | src/tools/tools.ts:255-291 | from the launch on, corrected: a context rejection gives launch then close |
| SingleScan.SingleScanSucceedsIffScanned | src/tools/tools.ts:249-367 | an answer is a report exactly when the parameters pass and the launch, the context and the page all succeed, and it is then the normalised scan; it is a rejection exactly when the parameters fail |
| SingleScan.EmptyHtmlRejected | src/tools/tools.ts:79 | empty HTML is rejected with the `EmptyHtml` issue and nothing is launched |
| SingleScan.OpenedTraceIsShut | src/tools/tools.ts:255-291 | once the context is created, the trace is accepted, launches once and closes once, last |
| SingleScan.ContextFailureLeaksBrowser | src/tools/tools.ts:255-263 | as written, a context rejection answers an error and leaves the browser launched and never closed |
| SingleScan.AsWrittenReleasesWhenContextOpens | src/tools/tools.ts:263-291 | as written, the browser is closed exactly once on every path where the context was created |
| SingleScan.ScanPageReleasesBrowser | src/tools/tools.ts:255-291 | corrected, every launched browser is closed exactly once, last, with never two contexts open |
| Summary.Bump | src/tools/tools.ts:484 | the impact's count goes up by one, from zero when it had none; every other count is unchanged |
| Summary.TallyFrom | src/tools/tools.ts:483-486 | folding from an accumulator adds, for every key, how often it occurs in the list; the keys are the accumulator's plus the occurring impacts |
| Summary.Tally | src/tools/tools.ts:483-486 | `byImpact` has a key exactly for each impact that occurs, mapped to its number of occurrences (at least one) |
| Summary.OccursWhenPresent | src/tools/tools.ts:483-486 | an impact that occurs in the list is counted at least once |
| Summary.OccurrencesCoverAll | src/tools/tools.ts:483-486 | when every impact is one of the four, their occurrence counts add up to the list length |
| Summary.TallySumsToTotal | src/tools/tools.ts:483-490 | for accepted input, `byImpact`'s keys are among the four impacts and its values add up to `totalViolations` |
| Summary.OccurrencesAppend | src/tools/tools.ts:483-486 | counting over a concatenation adds the counts |
| Summary.TallyAppend | src/tools/tools.ts:483-486 | the tally of two lists one after the other is the sum of their tallies, key by key |
| Summary.Condense | src/tools/tools.ts:491-497 | id, description, impact and help URL copied; `nodesAffected` is the length of `nodes`, or 0 when absent |
| Summary.Summarize | src/tools/tools.ts:488-498 | `totalViolations` is the input length; `byImpact` keys the occurring impacts with their counts; one condensed entry per violation, same order |
| Summary.SummarizeKeepsOrder | src/tools/tools.ts:491-497 | summarising a concatenation concatenates the condensed lists and adds the totals |
| Summary.SummarizeExample | src/tools/tools.ts:483-498 | two serious violations and one critical give total 3 and `{serious: 2, critical: 1}` |
| Summary.SummarizeTool | src/tools/tools.ts:477-531 | the answer is the summary exactly when the input is accepted, otherwise the schema's rejection |
| Report.ReportPathsDistinct | src/tools/tools.ts:574-578 | reports written under different uuids go to different files |
| Report.ReportAnswersLikeSummary | src/tools/tools.ts:549-564 | without a file-system failure, write-violations-report answers exactly what summarize-violations answers |
| Report.ReportFailsOnlyOnIo | src/tools/tools.ts:598-614 | the report answers an error exactly for accepted input with a folder-creation rejection (when the folder was missing) or a write rejection; a mkdir rejection is irrelevant when the folder exists |
| Report.FileSystem.MakeDirectory | src/tools/tools.ts:571-573 | returns the rejection if any; on success the folder exists; files are untouched |
| Report.FileSystem.WriteFile | src/tools/tools.ts:580-583 | returns the rejection if any; on success the path holds exactly the content; folders are untouched |
| Report.WriteViolationsReport | src/tools/tools.ts:543-597 | the answer is `ReportResponse`; the results folder exists afterwards unless rejected or refused; on success the report path holds exactly the rendered summary that is returned, and otherwise no file changes |

## Left out

- Server plumbing is not modelled: MCP server creation, the transport and tool registration (`src/index.ts`). Neither are logging (`logMessage` is a no-op here) and the environment lookup that yields `outputDirectory`, which is a parameter.
- The internals of Playwright and axe-core are oracles. This covers the 30-second timeouts, `networkidle`, `context.newPage()` and `waitForLoadState('load')`. A `newPage` or `goto`/`setContent` rejection is `LoadFails`. A load-state or analysis rejection is `EngineFails`. Any page wait that resolves is `Waited`.
- Browser.Browser.NewContext: requires that no context be open, as both handlers ensure; Playwright allows several contexts at once, which the lifecycle automaton treats as misuse.
- Rejections of `context.close()` and `browser.close()` are not modelled: the closes always succeed.
- `JSON.stringify`, the timestamp and the uuid are parameters (`render`, `timestamp`, `uuid`). The answer text of write-violations-report is the same serialisation of the same object that it writes.
- JavaScript numbers are unbounded integers. Zod's `.int()`, values beyond 2^53 and type errors (a string where a number is expected) are not modelled, because inputs are already typed.
- The `Required` issue is modelled only for the batch schema's stray `url`. Zod's exact issue order and its default messages are not promised: issues are listed in field order, and length issues come before element issues.
- `format` and `axeOptions.rules` are accepted and never read; the model validates `format` against its six literals and does nothing else with either. The boolean inside a `rules` entry is part of its type.
- `byImpact` is a map, so the key order of the JavaScript object (first occurrence) is not modelled.
- Report.JoinPath: does not model `path.join` normalisation (`..`, duplicate separators); the path is the plain concatenation with `/`.
- Report.FileSystem.MakeDirectory: `recursive: true` also creates missing parents; the model records only the results folder.
- `fs.existsSync` accepts any kind of file at the path; the model only checks folders.
- The handlers are `async`; interleaving between concurrent tool calls is not modelled.
- The test title handed to `performA11yScan`, and scan-html's `{ ...params, url: params.html }`, influence only logging, so they are not modelled.

## Findings

| source | as written | input that shows it | evidently intended | confidence | as-written member | corrected member |
|---|---|---|---|---|---|---|
| src/tools/tools.ts:149 | `scanBatchSchema` spreads `scanUrlSchema.shape`, whose `url` field is mandatory, so scan-batch refuses any call without a valid single `url` that the handler never reads | `{ "urls": ["https://example.com"] }` | a batch needs only `urls` and the shared options | not executed | Schema.BatchIssuesAsWritten, Schema.BatchSchemaDemandsStrayUrl, Batch.ScanBatchAsWritten, Batch.HandlerDemandsStrayUrl | Schema.BatchIssues, Batch.ScanBatch |
| src/tools/tools.ts:255-263 | in scan-url (and scan-html, 320-327) `browser.newContext` runs after the launch but before the `try` whose `finally` closes the browser, so a rejected context leaves the browser running | any accepted scan-url call whose `browser.newContext` rejects | the browser is closed on every path once launched, as scan-batch does | not executed | SingleScan.ScanPageAsWritten, SingleScan.ContextFailureLeaksBrowser | SingleScan.ScanPage, SingleScan.ScanPageReleasesBrowser |
