/**
 * The headless browser the scan handlers drive, reduced to what they do
 * with it: launch it, open and close isolated contexts with a viewport, load
 * a target into a page, wait, run the rule engine, close the browser.
 *
 * Playwright itself is an oracle: each call's failure, or the engine's
 * answer, is an input. What the model keeps is a ghost trace of the events,
 * and a lifecycle automaton that judges a trace.
 */
module Browser {
  import opened Wrappers
  import opened Schema
  import opened Scan

  datatype Event =
    | Launched                      // `chromium.launch`
    | ContextOpened(viewport: Size) // `browser.newContext`
    | Loaded(target: ScanTarget)    // `page.goto` / `page.setContent` resolved
    | Waited(ms: int)               // `page.waitForTimeout`
    | RulesRun(tags: seq<string>)   // the engine's `analyze` resolved
    | ContextClosed                 // `context.close`
    | BrowserClosed                 // `browser.close`

  /** What happens to the page opened in a context. */
  datatype PageOutcome =
    | LoadFails(message: string)    // navigation or content injection rejected
    | EngineFails(message: string)  // the load-state wait or the analysis rejected
    | Scanned(engine: EngineResult, timestamp: string)

  function WaitEvents(wait: Option<int>): seq<Event>
  {
    if wait.Some? then [Waited(wait.value)] else []
  }

  /** The events of one page, from loading it to the end of the analysis. */
  function PageEvents(target: ScanTarget, wait: Option<int>, tags: seq<string>, outcome: PageOutcome): seq<Event>
  {
    match outcome
    case LoadFails(_) => []
    case EngineFails(_) => [Loaded(target)] + WaitEvents(wait)
    case Scanned(_, _) => [Loaded(target)] + WaitEvents(wait) + [RulesRun(tags)]
  }

  // ---------------------------------------------------------------------
  // The lifecycle a well-behaved client follows
  // ---------------------------------------------------------------------

  /**
   * Unlaunched, then Idle (browser up, no context), InContext (exactly one
   * context open), Shut (browser closed). Broken absorbs every misuse: a
   * second launch, a context opened while another is open, page work with no
   * context, anything after the browser is closed.
   */
  datatype Phase = Unlaunched | Idle | InContext | Shut | Broken

  function Step(p: Phase, e: Event): Phase
  {
    match (p, e)
    case (Unlaunched, Launched) => Idle
    case (Idle, ContextOpened(_)) => InContext
    case (InContext, Loaded(_)) => InContext
    case (InContext, Waited(_)) => InContext
    case (InContext, RulesRun(_)) => InContext
    case (InContext, ContextClosed) => Idle
    case (Idle, BrowserClosed) => Shut
    case (InContext, BrowserClosed) => Shut
    case _ => Broken
  }

  function Run(p: Phase, t: seq<Event>): Phase
    decreases |t|
  {
    if t == [] then p else Run(Step(p, t[0]), t[1..])
  }

  /** How often `e` occurs in `t`. */
  function Count(t: seq<Event>, e: Event): nat
    decreases |t|
  {
    if t == [] then 0 else (if t[0] == e then 1 else 0) + Count(t[1..], e)
  }

  /** Contexts opened and not yet closed after `t`. */
  function OpenAfter(t: seq<Event>): int
    decreases |t|
  {
    if t == [] then 0
    else
      var e := t[|t| - 1];
      OpenAfter(t[..|t| - 1]) + (if e.ContextOpened? then 1 else if e == ContextClosed then -1 else 0)
  }

  /** How many contexts `t` opens, whatever their viewport. */
  function Opened(t: seq<Event>): nat
    decreases |t|
  {
    if t == [] then 0 else (if t[0].ContextOpened? then 1 else 0) + Opened(t[1..])
  }

  /** Every context `t` opens has viewport `v`. */
  ghost predicate OpensOnly(t: seq<Event>, v: Size)
  {
    forall i :: 0 <= i < |t| && t[i].ContextOpened? ==> t[i].viewport == v
  }

  lemma {:induction false} RunAppend(p: Phase, a: seq<Event>, b: seq<Event>)
    ensures Run(p, a + b) == Run(Run(p, a), b)
    decreases |a|
  {
    if a != [] {
      assert (a + b)[1..] == a[1..] + b;
      RunAppend(Step(p, a[0]), a[1..], b);
    } else {
      assert a + b == b;
    }
  }

  lemma {:induction false} BrokenStays(t: seq<Event>)
    ensures Run(Broken, t) == Broken
    decreases |t|
  {
    if t != [] {
      BrokenStays(t[1..]);
    }
  }

  lemma {:induction false} CountAppend(a: seq<Event>, b: seq<Event>, e: Event)
    ensures Count(a + b, e) == Count(a, e) + Count(b, e)
    decreases |a|
  {
    if a != [] {
      assert (a + b)[1..] == a[1..] + b;
      CountAppend(a[1..], b, e);
    } else {
      assert a + b == b;
    }
  }

  lemma {:induction false} OpenedAppend(a: seq<Event>, b: seq<Event>)
    ensures Opened(a + b) == Opened(a) + Opened(b)
    decreases |a|
  {
    if a != [] {
      assert (a + b)[1..] == a[1..] + b;
      OpenedAppend(a[1..], b);
    } else {
      assert a + b == b;
    }
  }

  /** A context with viewport `v` is one of the contexts opened. */
  lemma {:induction false} CountedAreOpened(t: seq<Event>, v: Size)
    ensures Count(t, ContextOpened(v)) <= Opened(t)
    decreases |t|
  {
    if t != [] {
      CountedAreOpened(t[1..], v);
    }
  }

  /**
   * If every context `t` opens is counted as one with viewport `v`, no
   * context in `t` has another viewport.
   */
  lemma {:induction false} AllCountedOpensOnly(t: seq<Event>, v: Size)
    requires Opened(t) == Count(t, ContextOpened(v))
    ensures OpensOnly(t, v)
    decreases |t|
  {
    if t != [] {
      CountedAreOpened(t[1..], v);
      AllCountedOpensOnly(t[1..], v);
      forall i | 0 <= i < |t| && t[i].ContextOpened?
        ensures t[i].viewport == v
      {
        if i > 0 {
          assert t[i] == t[1..][i - 1];
        }
      }
    }
  }

  lemma RunSnoc(p: Phase, t: seq<Event>, e: Event)
    ensures Run(p, t + [e]) == Step(Run(p, t), e)
  {
    RunAppend(p, t, [e]);
    assert [e][1..] == [];
  }

  lemma {:induction false} OpenAfterAppend(a: seq<Event>, b: seq<Event>)
    ensures OpenAfter(a + b) == OpenAfter(a) + OpenAfter(b)
    decreases |b|
  {
    if b == [] {
      assert a + b == a;
    } else {
      var front := b[..|b| - 1];
      assert (a + b)[..|a + b| - 1] == a + front;
      assert (a + b)[|a + b| - 1] == b[|b| - 1];
      OpenAfterAppend(a, front);
    }
  }

  /** A page's events neither open nor close a context. */
  lemma PageKeepsOpenContexts(target: ScanTarget, wait: Option<int>, tags: seq<string>, outcome: PageOutcome)
    ensures OpenAfter(PageEvents(target, wait, tags, outcome)) == 0
  {
    var w := WaitEvents(wait);
    assert OpenAfter(w) == 0 by {
      if wait.Some? {
        assert w[..0] == [];
      }
    }
    assert OpenAfter([Loaded(target)]) == 0 by {
      assert [Loaded(target)][..0] == [];
    }
    assert OpenAfter([RulesRun(tags)]) == 0 by {
      assert [RulesRun(tags)][..0] == [];
    }
    OpenAfterAppend([Loaded(target)], w);
    OpenAfterAppend([Loaded(target)] + w, [RulesRun(tags)]);
  }

  /**
   * A trace that ends with the browser shut, run from `p`, launches the
   * browser once if it started unlaunched, closes it exactly once, and ends
   * with that close.
   */
  lemma {:induction false} ShutAccounting(p: Phase, t: seq<Event>)
    requires Run(p, t) == Shut
    ensures Count(t, Launched) == (if p == Unlaunched then 1 else 0)
    ensures Count(t, BrowserClosed) == (if p == Shut then 0 else 1)
    ensures p != Shut ==> |t| > 0 && t[|t| - 1] == BrowserClosed
    decreases |t|
  {
    if t != [] {
      var q := Step(p, t[0]);
      if q == Broken {
        BrokenStays(t[1..]);
        assert false;
      }
      ShutAccounting(q, t[1..]);
      if p != Shut {
        if t[1..] == [] {
          assert q == Shut;
          assert t[0] == BrowserClosed;
        } else {
          if q == Shut {
            BrokenStays(t[2..]);
            assert false;
          }
          assert t[|t| - 1] == t[1..][|t[1..]| - 1];
        }
      }
    }
  }

  /** The automaton's phase tracks how many contexts are open. */
  lemma {:induction false} PhaseTracksOpenContexts(t: seq<Event>)
    requires Run(Unlaunched, t) != Broken
    ensures Run(Unlaunched, t) == Unlaunched || Run(Unlaunched, t) == Idle ==> OpenAfter(t) == 0
    ensures Run(Unlaunched, t) == InContext ==> OpenAfter(t) == 1
    ensures Run(Unlaunched, t) == Shut ==> 0 <= OpenAfter(t) <= 1
    decreases |t|
  {
    if t != [] {
      var front, e := t[..|t| - 1], t[|t| - 1];
      assert t == front + [e];
      RunAppend(Unlaunched, front, [e]);
      if Run(Unlaunched, front) == Broken {
        assert false;
      }
      PhaseTracksOpenContexts(front);
    }
  }

  /** In a trace the automaton accepts, at no point are two contexts open at once. */
  lemma NeverTwoContexts(t: seq<Event>)
    requires Run(Unlaunched, t) != Broken
    ensures forall k :: 0 <= k <= |t| ==> 0 <= OpenAfter(t[..k]) <= 1
  {
    forall k | 0 <= k <= |t|
      ensures 0 <= OpenAfter(t[..k]) <= 1
    {
      assert t == t[..k] + t[k..];
      RunAppend(Unlaunched, t[..k], t[k..]);
      if Run(Unlaunched, t[..k]) == Broken {
        BrokenStays(t[k..]);
        assert false;
      }
      PhaseTracksOpenContexts(t[..k]);
    }
  }

  /**
   * A session: launch, events that leave at most one context open and
   * never launch or close the browser, then close it. The automaton accepts
   * it, and it launches once, first, and closes once, last.
   */
  lemma SessionIsShut(middle: seq<Event>)
    requires Run(Idle, middle) == Idle || Run(Idle, middle) == InContext
    ensures var t := [Launched] + middle + [BrowserClosed];
      && Run(Unlaunched, t) == Shut
      && t[0] == Launched && t[|t| - 1] == BrowserClosed
      && Count(t, Launched) == 1 && Count(t, BrowserClosed) == 1
      && forall k :: 0 <= k <= |t| ==> 0 <= OpenAfter(t[..k]) <= 1
  {
    var t := [Launched] + middle + [BrowserClosed];
    RunAppend(Unlaunched, [Launched], middle);
    RunAppend(Unlaunched, [Launched] + middle, [BrowserClosed]);
    ShutAccounting(Unlaunched, t);
    NeverTwoContexts(t);
  }

  /** The events of a page keep the one context it lives in open. */
  lemma PageStaysInContext(target: ScanTarget, wait: Option<int>, tags: seq<string>, outcome: PageOutcome)
    ensures Run(InContext, PageEvents(target, wait, tags, outcome)) == InContext
  {
    var w := WaitEvents(wait);
    assert Run(InContext, w) == InContext;
    match outcome
    case LoadFails(_) =>
    case EngineFails(_) =>
      RunAppend(InContext, [Loaded(target)], w);
    case Scanned(_, _) =>
      RunAppend(InContext, [Loaded(target)], w);
      RunAppend(InContext, [Loaded(target)] + w, [RulesRun(tags)]);
  }

  // ---------------------------------------------------------------------
  // The browser handle
  // ---------------------------------------------------------------------

  class Browser {
    var connected: bool
    var openContexts: nat
    ghost var trace: seq<Event>

    /**
     * The handle agrees with its trace: connected exactly while the
     * automaton has the browser up, and then with as many contexts open as
     * the trace has left open.
     */
    ghost predicate Valid()
      reads this
    {
      && (connected <==> Run(Unlaunched, trace) == Idle || Run(Unlaunched, trace) == InContext)
      && (connected ==> openContexts == OpenAfter(trace))
    }

    /** `chromium.launch({ headless: true })`, when it resolves. */
    constructor Launch()
      ensures Valid()
      ensures connected && openContexts == 0 && trace == [Launched]
    {
      connected := true;
      openContexts := 0;
      trace := [Launched];
      assert [Launched][1..] == [] && [Launched][..0] == [];
    }

    /**
     * `browser.newContext({ viewport })`, with no other context open;
     * `failure` is the rejection, if any.
     */
    method NewContext(viewport: Size, failure: Option<string>) returns (error: Option<string>)
      requires Valid() && connected && openContexts == 0
      modifies this
      ensures Valid()
      ensures connected && error == failure
      ensures failure.None? ==> openContexts == old(openContexts) + 1 && trace == old(trace) + [ContextOpened(viewport)]
      ensures failure.Some? ==> openContexts == old(openContexts) && trace == old(trace)
    {
      error := failure;
      if failure.None? {
        PhaseTracksOpenContexts(trace);
        RunSnoc(Unlaunched, trace, ContextOpened(viewport));
        OpenAfterAppend(trace, [ContextOpened(viewport)]);
        assert [ContextOpened(viewport)][..0] == [];
        openContexts := openContexts + 1;
        trace := trace + [ContextOpened(viewport)];
      }
    }

    /**
     * `context.newPage()`, the load, the optional post-load wait and the
     * engine run with `tags`; `outcome` is how far the page got.
     */
    method RunPage(target: ScanTarget, wait: Option<int>, tags: seq<string>, outcome: PageOutcome)
      returns (result: PageOutcome)
      requires Valid() && connected && openContexts > 0
      modifies this`trace
      ensures Valid()
      ensures result == outcome
      ensures trace == old(trace) + PageEvents(target, wait, tags, outcome)
    {
      var events := PageEvents(target, wait, tags, outcome);
      PhaseTracksOpenContexts(trace);
      RunAppend(Unlaunched, trace, events);
      PageStaysInContext(target, wait, tags, outcome);
      OpenAfterAppend(trace, events);
      PageKeepsOpenContexts(target, wait, tags, outcome);
      result := outcome;
      trace := trace + events;
    }

    /** `context.close()` */
    method CloseContext()
      requires Valid() && connected && openContexts > 0
      modifies this
      ensures Valid()
      ensures connected && openContexts == old(openContexts) - 1
      ensures trace == old(trace) + [ContextClosed]
    {
      PhaseTracksOpenContexts(trace);
      RunSnoc(Unlaunched, trace, ContextClosed);
      OpenAfterAppend(trace, [ContextClosed]);
      assert [ContextClosed][..0] == [];
      openContexts := openContexts - 1;
      trace := trace + [ContextClosed];
    }

    /** `browser.close()`, which also discards any context still open. */
    method Close()
      requires Valid() && connected
      modifies this
      ensures Valid()
      ensures !connected && openContexts == 0
      ensures trace == old(trace) + [BrowserClosed]
    {
      RunSnoc(Unlaunched, trace, BrowserClosed);
      connected := false;
      openContexts := 0;
      trace := trace + [BrowserClosed];
    }
  }
}
