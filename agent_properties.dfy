/** What the agent guarantees about the calls it makes, proved on the reference semantics. */
module AgentProperties {
  import opened Outcomes
  import opened Schema
  import opened Foreign
  import opened AgentSpec
  import Extraction

  /** The error raised by the call at position i of trace s, if it raised one. */
  ghost function CallError(o: Oracle, s: seq<Event>, i: nat): (raised: Option<Error>)
    requires i < |s|
  {
    ErrorOf(o, s[i], i)
  }

  /**
   * Going from trace t to trace t', an operation made its calls one after the other and stopped at
   * the first one that raised: every call but the last returned normally, and the operation
   * raised exactly what its last call raised (nothing, when that call returned).
   */
  ghost predicate StopsAtFirstError(o: Oracle, t: seq<Event>, t': seq<Event>, raised: Option<Error>) {
    t <= t' &&
    (forall i | |t| <= i < |t'| - 1 :: CallError(o, t', i).None?) &&
    raised == (if |t'| == |t| then None else CallError(o, t', |t'| - 1))
  }

  /** Two operations that stop at their first error, run one after the other, stop at the first error. */
  lemma StopsAtFirstErrorThen(o: Oracle, t0: seq<Event>, t1: seq<Event>, t2: seq<Event>, raised: Option<Error>)
    requires StopsAtFirstError(o, t0, t1, None)
    requires StopsAtFirstError(o, t1, t2, raised)
    ensures StopsAtFirstError(o, t0, t2, raised)
  {
    forall i | |t0| <= i < |t2| - 1
      ensures CallError(o, t2, i).None?
    {
      if i < |t1| {
        assert t2[i] == t1[i];
        assert CallError(o, t2, i) == CallError(o, t1, i);
      }
    }
    if |t2| == |t1| && |t1| > |t0| {
      assert t2 == t1;
    }
  }

  /** A single call stops at its own error. */
  lemma StopsAtFirstErrorOne(o: Oracle, t: seq<Event>, e: Event)
    ensures StopsAtFirstError(o, t, t + [e], ErrorOf(o, e, |t|))
  {
    assert (t + [e])[|t|] == e;
  }

  /** The releases `close` makes for the handles h: browser first, then engine. */
  ghost function Releases(h: Handles): (calls: seq<Event>) {
    (if h.browser.Some? then [CloseBrowser(h.browser.value)] else []) +
    (if h.playwright.Some? then [StopEngine(h.playwright.value)] else [])
  }

  /**
   * `init_browser` starts the engine, then launches a browser on it, then opens a page on that
   * browser, stopping at the first call that raises; on success all three handles are present.
   */
  lemma InitBrowserOrder(h: Handles, o: Oracle, t: seq<Event>)
    ensures var r := InitBrowser(h, o, t);
      StopsAtFirstError(o, t, r.trace, r.result.Exception()) &&
      Calls(r.trace[|t|..]) <= [StartCall, LaunchCall, NewPageCall] &&
      (r.result.Ok? ==>
        r.handles.playwright.Some? && r.handles.browser.Some? && r.handles.page.Some? &&
        r.trace[|t|..] == [StartEngine, LaunchBrowser(r.handles.playwright.value, Headless, LaunchArgs),
                           OpenPage(r.handles.browser.value)])
  {
    var r := InitBrowser(h, o, t);
    var ext := r.trace[|t|..];
    assert r.trace == t + ext;
    if o.start(|t|).Err? {
      StopsAtFirstErrorOne(o, t, StartEngine);
      assert ext == [StartEngine];
    } else if o.launch(|t| + 1).Err? {
      assert ext == [StartEngine, LaunchBrowser(o.start(|t|).value, Headless, LaunchArgs)];
    } else {
      assert ext == [StartEngine, LaunchBrowser(o.start(|t|).value, Headless, LaunchArgs),
                     OpenPage(o.launch(|t| + 1).value)];
    }
  }

  /** Navigating, waiting and reading the markup issue exactly these calls, in this order. */
  lemma LoadAndReadOrder(h: Handles, o: Oracle, t: seq<Event>, url: string)
    requires h.page.Some?
    ensures var r := LoadAndRead(h, o, t, url); var p := h.page.value;
      StopsAtFirstError(o, t, r.trace, r.result.Exception()) &&
      r.trace[|t|..] <= [Goto(p, url, WaitUntil), WaitForTimeout(p, SettleMillis), ReadContent(p)] &&
      Calls(r.trace[|t|..]) <= [GotoCall, WaitCall, ContentCall] &&
      (r.result.Ok? ==> |r.trace| == |t| + 3 && r.result == o.content(|t| + 2))
  {
    var r := LoadAndRead(h, o, t, url);
    var p := h.page.value;
    var ext := r.trace[|t|..];
    assert r.trace == t + ext;
    if o.goto(|t|).Err? {
      assert ext == [Goto(p, url, WaitUntil)];
    } else if o.waitForTimeout(|t| + 1).Err? {
      assert ext == [Goto(p, url, WaitUntil), WaitForTimeout(p, SettleMillis)];
    } else {
      assert ext == [Goto(p, url, WaitUntil), WaitForTimeout(p, SettleMillis), ReadContent(p)];
    }
    var full := [Goto(p, url, WaitUntil), WaitForTimeout(p, SettleMillis), ReadContent(p)];
    CallsPrefix(ext, full);
    assert Calls(full) == [GotoCall, WaitCall, ContentCall];
  }

  /** With an open page, `scrape_content` asks whether it is closed and never initialises. */
  lemma ScrapeContentReusesOpenPage(h: Handles, o: Oracle, t: seq<Event>, url: string)
    requires !NeedsInit(h, o, t)
    ensures var r := ScrapeContent(h, o, t, url); var t0 := t + [QueryClosed(h.page.value)];
      r == LoadAndRead(h, o, t0, url) && StartEngine !in r.trace[|t|..] && r.handles == h
  {
    var r := ScrapeContent(h, o, t, url);
    var t0 := t + [QueryClosed(h.page.value)];
    LoadAndReadOrder(h, o, t0, url);
    var ext := r.trace[|t0|..];
    assert r.trace[|t|..] == [QueryClosed(h.page.value)] + ext;
    assert forall k | 0 <= k < |ext| :: !ext[k].StartEngine?;
  }

  /** Without an open page, `scrape_content` starts with `init_browser` (after the closed check, if any). */
  lemma ScrapeContentInitialises(h: Handles, o: Oracle, t: seq<Event>, url: string)
    requires NeedsInit(h, o, t)
    ensures var r := ScrapeContent(h, o, t, url);
      var t0 := if h.page.None? then t else t + [QueryClosed(h.page.value)];
      var i := InitBrowser(h, o, t0);
      r == (if i.result.Err? then Run(Err(i.result.error), i.handles, i.trace)
            else LoadAndRead(i.handles, o, i.trace, url)) &&
      i.trace <= r.trace && |t0| < |r.trace| && r.trace[|t0|] == StartEngine &&
      StartEngine in r.trace[|t|..]
  {
    var r := ScrapeContent(h, o, t, url);
    var t0 := if h.page.None? then t else t + [QueryClosed(h.page.value)];
    var i := InitBrowser(h, o, t0);
    InitBrowserOrder(h, o, t0);
    assert i.trace[|t0|] == StartEngine;
    assert r.trace[|t|..][|t0| - |t|] == StartEngine;
  }

  /**
   * `scrape_content` runs `init_browser` exactly when there is no page or the page is closed;
   * otherwise it keeps the engine, browser and page it had.
   */
  lemma ScrapeContentInitialisesIffNoOpenPage(h: Handles, o: Oracle, t: seq<Event>, url: string)
    ensures var r := ScrapeContent(h, o, t, url);
      (NeedsInit(h, o, t) <==> StartEngine in r.trace[|t|..]) &&
      (!NeedsInit(h, o, t) ==> r.handles == h)
  {
    if NeedsInit(h, o, t) {
      ScrapeContentInitialises(h, o, t, url);
    } else {
      ScrapeContentReusesOpenPage(h, o, t, url);
    }
  }

  /** The calls `scrape_content` makes before navigating: the closed check (if there is a page). */
  lemma ScrapeContentProbe(h: Handles, o: Oracle, t: seq<Event>)
    ensures var t0 := if h.page.None? then t else t + [QueryClosed(h.page.value)];
      StopsAtFirstError(o, t, t0, None) &&
      Calls(t0[|t|..]) == if h.page.None? then [] else [IsClosedCall]
  {
    if h.page.Some? {
      StopsAtFirstErrorOne(o, t, QueryClosed(h.page.value));
      assert (t + [QueryClosed(h.page.value)])[|t|..] == [QueryClosed(h.page.value)];
    } else {
      assert t[|t|..] == [];
    }
  }

  /** `scrape_content` stops at its first call that raises, and raises what that call raised. */
  lemma ScrapeContentStopsAtFirstError(h: Handles, o: Oracle, t: seq<Event>, url: string)
    ensures var r := ScrapeContent(h, o, t, url);
      StopsAtFirstError(o, t, r.trace, r.result.Exception())
  {
    var r := ScrapeContent(h, o, t, url);
    var t0 := if h.page.None? then t else t + [QueryClosed(h.page.value)];
    ScrapeContentProbe(h, o, t);
    if NeedsInit(h, o, t) {
      var i := InitBrowser(h, o, t0);
      ScrapeContentInitialises(h, o, t, url);
      InitBrowserOrder(h, o, t0);
      if i.result.Err? {
        StopsAtFirstErrorThen(o, t, t0, i.trace, i.result.Exception());
      } else {
        LoadAndReadOrder(i.handles, o, i.trace, url);
        StopsAtFirstErrorThen(o, t, t0, i.trace, None);
        StopsAtFirstErrorThen(o, t, i.trace, r.trace, r.result.Exception());
      }
    } else {
      ScrapeContentReusesOpenPage(h, o, t, url);
      LoadAndReadOrder(h, o, t0, url);
      StopsAtFirstErrorThen(o, t, t0, r.trace, r.result.Exception());
    }
  }

  /**
   * Three stretches of calls, each a prefix of its expected list, where the third is empty unless
   * the second is complete: together they are a prefix of the three lists joined.
   */
  lemma CallsInSegments(t: seq<Event>, a: seq<Event>, b: seq<Event>, c: seq<Event>,
                        p: seq<Call>, q: seq<Call>, r: seq<Call>)
    requires t <= a <= b <= c
    requires Calls(a[|t|..]) == p && Calls(b[|a|..]) <= q && Calls(c[|b|..]) <= r
    requires Calls(b[|a|..]) != q ==> c == b
    ensures Calls(c[|t|..]) <= p + q + r
  {
    assert c[|t|..] == a[|t|..] + b[|a|..] + c[|b|..];
    CallsAppend(a[|t|..], b[|a|..]);
    CallsAppend(a[|t|..] + b[|a|..], c[|b|..]);
    if Calls(b[|a|..]) == q {
      PrefixExtend(p + q, Calls(c[|b|..]), r, []);
      assert p + q + r + [] == p + q + r;
    } else {
      assert c[|b|..] == [];
      PrefixExtend(p, Calls(b[|a|..]), q, r);
    }
  }

  lemma CallOrderWhenInitialising(h: Handles, o: Oracle, t: seq<Event>, url: string)
    requires NeedsInit(h, o, t)
    ensures var r := ScrapeContent(h, o, t, url);
      var probe := if h.page.None? then [] else [IsClosedCall];
      Calls(r.trace[|t|..]) <= probe + [StartCall, LaunchCall, NewPageCall] + [GotoCall, WaitCall, ContentCall]
  {
    var r := ScrapeContent(h, o, t, url);
    var probe := if h.page.None? then [] else [IsClosedCall];
    var t0 := if h.page.None? then t else t + [QueryClosed(h.page.value)];
    var i := InitBrowser(h, o, t0);
    ScrapeContentProbe(h, o, t);
    ScrapeContentInitialises(h, o, t, url);
    InitBrowserOrder(h, o, t0);
    if i.result.Ok? {
      LoadAndReadOrder(i.handles, o, i.trace, url);
      assert Calls(i.trace[|t0|..]) == [StartCall, LaunchCall, NewPageCall];
    } else {
      assert r.trace[|i.trace|..] == [];
    }
    CallsInSegments(t, t0, i.trace, r.trace, probe, [StartCall, LaunchCall, NewPageCall],
                    [GotoCall, WaitCall, ContentCall]);
  }

  lemma CallOrderWhenReusing(h: Handles, o: Oracle, t: seq<Event>, url: string)
    requires !NeedsInit(h, o, t)
    ensures var r := ScrapeContent(h, o, t, url);
      Calls(r.trace[|t|..]) <= [IsClosedCall] + [GotoCall, WaitCall, ContentCall]
  {
    var r := ScrapeContent(h, o, t, url);
    var t0 := t + [QueryClosed(h.page.value)];
    ScrapeContentProbe(h, o, t);
    ScrapeContentReusesOpenPage(h, o, t, url);
    LoadAndReadOrder(h, o, t0, url);
    CallsAppend(t0[|t|..], r.trace[|t0|..]);
    assert r.trace[|t|..] == t0[|t|..] + r.trace[|t0|..];
    PrefixExtend([IsClosedCall], Calls(r.trace[|t0|..]), [GotoCall, WaitCall, ContentCall], []);
    assert [IsClosedCall] + [GotoCall, WaitCall, ContentCall] + [] == [IsClosedCall] + [GotoCall, WaitCall, ContentCall];
  }

  /** `scrape_content` makes its calls in this order: closed check, initialisation, goto, wait, content. */
  lemma ScrapeContentCallOrder(h: Handles, o: Oracle, t: seq<Event>, url: string)
    ensures var r := ScrapeContent(h, o, t, url);
      var probe := if h.page.None? then [] else [IsClosedCall];
      var init := if NeedsInit(h, o, t) then [StartCall, LaunchCall, NewPageCall] else [];
      Calls(r.trace[|t|..]) <= probe + init + [GotoCall, WaitCall, ContentCall]
  {
    if NeedsInit(h, o, t) {
      CallOrderWhenInitialising(h, o, t, url);
    } else {
      CallOrderWhenReusing(h, o, t, url);
      assert [IsClosedCall] + [] == [IsClosedCall];
    }
  }

  /**
   * `is_closed()` is asked only of a page the agent holds: with no page it is never called; with a
   * page it is the very first call, and it is not asked again afterwards (not even after
   * re-initialising).
   */
  lemma ScrapeContentAsksClosedOnlyOfHeldPage(h: Handles, o: Oracle, t: seq<Event>, url: string)
    ensures var r := ScrapeContent(h, o, t, url);
      (h.page.None? ==> IsClosedCall !in Calls(r.trace[|t|..])) &&
      (h.page.Some? ==>
         |r.trace| > |t| && r.trace[|t|] == QueryClosed(h.page.value) &&
         IsClosedCall !in Calls(r.trace[|t| + 1..]))
  {
    var r := ScrapeContent(h, o, t, url);
    var init := if NeedsInit(h, o, t) then [StartCall, LaunchCall, NewPageCall] else [];
    var rest := init + [GotoCall, WaitCall, ContentCall];
    assert IsClosedCall !in rest;
    ScrapeContentCallOrder(h, o, t, url);
    var full := r.trace[|t|..];
    if h.page.None? {
      assert [] + init + [GotoCall, WaitCall, ContentCall] == rest;
      NotInPrefix(Calls(full), rest, IsClosedCall);
    } else {
      var t0 := t + [QueryClosed(h.page.value)];
      if NeedsInit(h, o, t) {
        ScrapeContentInitialises(h, o, t, url);
      } else {
        ScrapeContentReusesOpenPage(h, o, t, url);
      }
      assert t0 <= r.trace;
      assert r.trace[|t|] == t0[|t|];
      assert r.trace[|t| + 1..] == full[1..];
      assert Calls(full[1..]) == Calls(full)[1..];
      assert [IsClosedCall] + init + [GotoCall, WaitCall, ContentCall] == [IsClosedCall] + rest;
      assert Calls(full)[1..] <= rest;
      NotInPrefix(Calls(full)[1..], rest, IsClosedCall);
    }
  }

  /** A call kind absent from a list is absent from each of its prefixes. */
  lemma NotInPrefix(s: seq<Call>, q: seq<Call>, c: Call)
    requires s <= q && c !in q
    ensures c !in s
  {
    assert forall k | 0 <= k < |s| :: s[k] == q[k];
  }

  /** When loading returns, its three calls are the last ones and the markup is content()'s reply. */
  lemma LoadAndReadReturns(h: Handles, o: Oracle, before: seq<Event>, url: string, r: Run<string>)
    requires r == LoadAndRead(h, o, before, url) && r.result.Ok?
    ensures r.handles.page.Some? && |r.trace| >= 3 &&
      (var n := |r.trace|; var p := r.handles.page.value;
       r.trace[n - 3..] == [Goto(p, url, WaitUntil), WaitForTimeout(p, SettleMillis), ReadContent(p)] &&
       r.result == o.content(n - 1))
  {
    LoadAndReadOrder(h, o, before, url);
    assert r.trace == before + r.trace[|before|..];
  }

  /**
   * When `scrape_content` returns, its last three calls were goto with `wait_until="load"`, the
   * 2000 ms wait and `content()` on the page now held, and it returns what `content()` gave.
   */
  lemma ScrapeContentReturnsMarkup(h: Handles, o: Oracle, t: seq<Event>, url: string)
    ensures var r := ScrapeContent(h, o, t, url);
      r.result.Ok? ==>
        r.handles.page.Some? && |r.trace| >= |t| + 3 &&
        (var n := |r.trace|; var p := r.handles.page.value;
         r.trace[n - 3..] == [Goto(p, url, WaitUntil), WaitForTimeout(p, SettleMillis), ReadContent(p)] &&
         r.result == o.content(n - 1))
  {
    var r := ScrapeContent(h, o, t, url);
    if r.result.Ok? {
      ScrapeContentOrderFacts(h, o, t, url);
      if NeedsInit(h, o, t) {
        var t0 := if h.page.None? then t else t + [QueryClosed(h.page.value)];
        var i := InitBrowser(h, o, t0);
        ScrapeContentInitialises(h, o, t, url);
        LoadAndReadReturns(i.handles, o, i.trace, url, r);
      } else {
        ScrapeContentReusesOpenPage(h, o, t, url);
        LoadAndReadReturns(h, o, t + [QueryClosed(h.page.value)], url, r);
      }
    }
  }

  /** A successful `scrape_content` made at least the three loading calls. */
  lemma ScrapeContentOrderFacts(h: Handles, o: Oracle, t: seq<Event>, url: string)
    ensures var r := ScrapeContent(h, o, t, url);
      r.result.Ok? ==> |r.trace| >= |t| + 3
  {
    var r := ScrapeContent(h, o, t, url);
    var t0 := if h.page.None? then t else t + [QueryClosed(h.page.value)];
    if r.result.Ok? {
      if NeedsInit(h, o, t) {
        ScrapeContentInitialises(h, o, t, url);
        LoadAndReadOrder(InitBrowser(h, o, t0).handles, o, InitBrowser(h, o, t0).trace, url);
      } else {
        ScrapeContentReusesOpenPage(h, o, t, url);
        LoadAndReadOrder(h, o, t0, url);
      }
    }
  }

  /**
   * `close` closes the browser only if there is one, then stops the engine only if there is
   * one, stopping at the first call that raises; when both return, all three handles are absent,
   * and when one raises, the handles are as they were.
   */
  lemma CloseReleasesPresentHandles(h: Handles, o: Oracle, t: seq<Event>)
    ensures var r := Close(h, o, t);
      StopsAtFirstError(o, t, r.trace, r.result.Exception()) &&
      r.trace[|t|..] <= Releases(h) &&
      (r.result.Ok? ==> r.trace == t + Releases(h) && r.handles == Released) &&
      (r.result.Err? ==> r.handles == h && |r.trace| > |t|) &&
      (h.browser.Some? ==> |r.trace| > |t|)
  {
    var r := Close(h, o, t);
    var ext := r.trace[|t|..];
    assert r.trace == t + ext;
    if h.browser.Some? {
      var t1 := t + [CloseBrowser(h.browser.value)];
      StopsAtFirstErrorOne(o, t, CloseBrowser(h.browser.value));
      if o.closeBrowser(|t|).Ok? && h.playwright.Some? {
        StopsAtFirstErrorOne(o, t1, StopEngine(h.playwright.value));
        StopsAtFirstErrorThen(o, t, t1, r.trace, r.result.Exception());
      }
    } else if h.playwright.Some? {
      StopsAtFirstErrorOne(o, t, StopEngine(h.playwright.value));
    }
  }

  /** A second `close` makes no call and changes nothing. */
  lemma CloseTwiceIsClose(h: Handles, o: Oracle, t: seq<Event>)
    ensures var r := Close(h, o, t);
      r.result.Ok? ==> Close(r.handles, o, r.trace) == Run(Ok(()), r.handles, r.trace)
  {
  }

  /**
   * `process_with_llm` makes one completion request whose user message is the payload (a prefix
   * of the HTML of length min(|html|, 150000) when truncating, the whole HTML otherwise), and
   * returns the selection of that completion or raises what the request raised.
   */
  lemma ProcessWithLlmSendsPayload(h: Handles, o: Oracle, t: seq<Event>, client: Client,
                                   html: string, instructions: string, truncate: bool)
    ensures var r := ProcessWithLlm(h, o, t, client, html, instructions, truncate);
      StopsAtFirstError(o, t, r.trace, r.result.Exception()) &&
      |r.trace| == |t| + 1 && r.handles == h &&
      r.trace[|t|].CreateCompletion? &&
      (var call := r.trace[|t|];
       call.apiKey == client.apiKey && call.model == LlmModel && call.temperature == Temperature &&
       call.instructions == instructions && call.userContent <= html &&
       |call.userContent| == (if truncate then Extraction.Min(|html|, Extraction.MaxHtmlChars) else |html|)) &&
      (r.result.Ok? ==> r.result.value == Extraction.Select(o.complete(|t|).value))
  {
    var r := ProcessWithLlm(h, o, t, client, html, instructions, truncate);
    StopsAtFirstErrorOne(o, t, r.trace[|t|]);
    assert r.trace == t + [r.trace[|t|]];
  }

  /**
   * After `scrape_content` returned markup on a page, the try block takes a viewport PNG screenshot
   * of that page and then sends the markup, untruncated, to the LLM; it stops at the first call
   * that raises, and on success returns the selection and the screenshot bytes.
   */
  lemma CaptureAndExtractSteps(c: Run<string>, o: Oracle, client: Client, instructions: string)
    requires c.result.Ok? ==> c.handles.page.Some?
    ensures var b := CaptureAndExtract(c, o, client, instructions); var n := |c.trace|;
      StopsAtFirstError(o, c.trace, b.trace, if c.result.Err? then None else b.result.Exception()) &&
      (c.result.Err? ==> b.trace == c.trace && b.result == Err(c.result.error)) &&
      (c.result.Ok? ==>
        b.trace[n..] <= [Screenshot(c.handles.page.value, BufferShot),
                         CreateCompletion(client.apiKey, LlmModel, instructions, c.result.value, Temperature)] &&
        (b.result.Ok? <==> |b.trace| == n + 2 && o.screenshot(n).Ok? && o.complete(n + 1).Ok?) &&
        (b.result.Ok? ==> b.result.value == (Extraction.Select(o.complete(n + 1).value), o.screenshot(n).value))) &&
      Calls(b.trace[n..]) <= [ScreenshotCall, CompletionCall]
  {
    var b := CaptureAndExtract(c, o, client, instructions);
    var n := |c.trace|;
    if c.result.Ok? {
      var p := c.handles.page.value;
      var shot := Screenshot(p, BufferShot);
      var ask := CreateCompletion(client.apiKey, LlmModel, instructions, c.result.value, Temperature);
      var t1 := c.trace + [shot];
      StopsAtFirstErrorOne(o, c.trace, shot);
      assert Extraction.Payload(c.result.value, false) == c.result.value;
      if o.screenshot(n).Ok? {
        StopsAtFirstErrorOne(o, t1, ask);
        StopsAtFirstErrorThen(o, c.trace, t1, b.trace, b.result.Exception());
        assert b.trace[n..] == [shot, ask];
      } else {
        assert b.trace[n..] == [shot];
      }
      CallsPrefix(b.trace[n..], [shot, ask]);
      assert Calls([shot, ask]) == [ScreenshotCall, CompletionCall];
    } else {
      assert b.trace[n..] == [];
    }
  }

  /** `scrape_content` never closes the browser or stops the engine, even when it replaces them. */
  lemma ScrapeContentReleasesNothing(h: Handles, o: Oracle, t: seq<Event>, url: string)
    ensures var ext := Calls(ScrapeContent(h, o, t, url).trace[|t|..]);
      CloseBrowserCall !in ext && StopCall !in ext
  {
    ScrapeContentCallOrder(h, o, t, url);
  }

  /** Calls that follow calls without a release, and are a screenshot and a completion, contain no release. */
  lemma NoReleaseAfter(t: seq<Event>, c: Run<string>, b: Run<(Option<CourseList>, Bytes)>)
    requires t <= c.trace <= b.trace
    requires CloseBrowserCall !in Calls(c.trace[|t|..]) && StopCall !in Calls(c.trace[|t|..])
    requires Calls(b.trace[|c.trace|..]) <= [ScreenshotCall, CompletionCall]
    ensures CloseBrowserCall !in Calls(b.trace[|t|..]) && StopCall !in Calls(b.trace[|t|..])
  {
    assert b.trace[|t|..] == c.trace[|t|..] + b.trace[|c.trace|..];
    CallsAppend(c.trace[|t|..], b.trace[|c.trace|..]);
  }

  /** The steps of the try block make no release call. */
  lemma TryBlockReleasesNothing(h: Handles, o: Oracle, t: seq<Event>, client: Client,
                                url: string, instructions: string)
    ensures var ext := Calls(TryBlock(h, o, t, client, url, instructions).trace[|t|..]);
      CloseBrowserCall !in ext && StopCall !in ext
  {
    var c := ScrapeContent(h, o, t, url);
    ScrapeContentReleasesNothing(h, o, t, url);
    ScrapeContentReturnsMarkup(h, o, t, url);
    CaptureAndExtractSteps(c, o, client, instructions);
    NoReleaseAfter(t, c, CaptureAndExtract(c, o, client, instructions));
  }

  /**
   * The try block of `scrape_courses` runs `scrape_content`, then `screenshot_buffer`, then
   * `process_with_llm` on the markup as returned (no truncation), each only after the previous
   * one returned; it stops at the first call that raises and raises what it raised.
   */
  lemma TryBlockSteps(h: Handles, o: Oracle, t: seq<Event>, client: Client,
                      url: string, instructions: string)
    ensures var b := TryBlock(h, o, t, client, url, instructions);
      var c := ScrapeContent(h, o, t, url); var n := |c.trace|;
      StopsAtFirstError(o, t, b.trace, b.result.Exception()) &&
      c.trace <= b.trace && b.handles == c.handles &&
      (c.result.Err? ==> b.trace == c.trace && b.result == Err(c.result.error)) &&
      (c.result.Ok? ==>
        c.handles.page.Some? &&
        b.trace[n..] <= [Screenshot(c.handles.page.value, BufferShot),
                         CreateCompletion(client.apiKey, LlmModel, instructions, c.result.value, Temperature)]) &&
      (b.result.Ok? ==>
        c.result.Ok? && |b.trace| == n + 2 &&
        b.result.value == (Extraction.Select(o.complete(n + 1).value), o.screenshot(n).value))
  {
    var c := ScrapeContent(h, o, t, url);
    ScrapeContentStopsAtFirstError(h, o, t, url);
    ScrapeContentReturnsMarkup(h, o, t, url);
    StepsAfterContent(t, c, o, client, instructions);
  }

  /** The try block's steps after any `scrape_content` run that stopped at its first exception. */
  lemma StepsAfterContent(t: seq<Event>, c: Run<string>, o: Oracle, client: Client, instructions: string)
    requires StopsAtFirstError(o, t, c.trace, c.result.Exception())
    requires c.result.Ok? ==> c.handles.page.Some?
    ensures var b := CaptureAndExtract(c, o, client, instructions); var n := |c.trace|;
      StopsAtFirstError(o, t, b.trace, b.result.Exception()) &&
      c.trace <= b.trace && b.handles == c.handles &&
      (c.result.Err? ==> b.trace == c.trace && b.result == Err(c.result.error)) &&
      (c.result.Ok? ==>
        b.trace[n..] <= [Screenshot(c.handles.page.value, BufferShot),
                         CreateCompletion(client.apiKey, LlmModel, instructions, c.result.value, Temperature)]) &&
      (b.result.Ok? ==>
        c.result.Ok? && |b.trace| == n + 2 &&
        b.result.value == (Extraction.Select(o.complete(n + 1).value), o.screenshot(n).value))
  {
    var b := CaptureAndExtract(c, o, client, instructions);
    CaptureAndExtractSteps(c, o, client, instructions);
    if c.result.Ok? {
      StopsAtFirstErrorThen(o, t, c.trace, b.trace, b.result.Exception());
    }
  }

  /** Counting the release calls in a prefix of Releases(h) that holds the browser close when there is a browser. */
  lemma ReleaseCounts(h: Handles, ext: seq<Event>)
    requires ext <= Releases(h) && (h.browser.Some? ==> |ext| > 0)
    ensures var calls := multiset(Calls(ext));
      calls[CloseBrowserCall] == (if h.browser.Some? then 1 else 0) &&
      calls[StopCall] <= (if h.playwright.Some? then 1 else 0) &&
      (ext == Releases(h) ==> calls[StopCall] == (if h.playwright.Some? then 1 else 0))
  {
    var all := Releases(h);
    if |ext| == 0 {
      assert Calls(ext) == [];
    } else if h.browser.Some? {
      if |ext| == 1 {
        assert ext == [CloseBrowser(h.browser.value)];
        assert Calls(ext) == [CloseBrowserCall];
      } else {
        assert h.playwright.Some? && ext == [CloseBrowser(h.browser.value), StopEngine(h.playwright.value)];
        assert Calls(ext) == [CloseBrowserCall, StopCall];
        assert multiset(Calls(ext)) == multiset{CloseBrowserCall, StopCall};
      }
    } else {
      assert h.playwright.Some? && all == [StopEngine(h.playwright.value)];
      assert ext == all;
      assert Calls(ext) == [StopCall];
    }
  }

  /** How many release calls `close` makes: one browser close per browser, at most one engine stop. */
  lemma CloseCallCounts(h: Handles, o: Oracle, t: seq<Event>)
    ensures var r := Close(h, o, t); var calls := multiset(Calls(r.trace[|t|..]));
      calls[CloseBrowserCall] == (if h.browser.Some? then 1 else 0) &&
      calls[StopCall] <= (if h.playwright.Some? then 1 else 0) &&
      (r.result.Ok? ==> calls[StopCall] == (if h.playwright.Some? then 1 else 0))
  {
    var r := Close(h, o, t);
    CloseReleasesPresentHandles(h, o, t);
    if r.result.Ok? {
      assert r.trace[|t|..] == Releases(h);
    }
    ReleaseCounts(h, r.trace[|t|..]);
  }

  /**
   * The `finally` clause runs `close` once, after the try block, on the handles it left. When
   * close completes, all handles are absent and the try block's outcome (its value, or the very
   * exception a step raised) is the outcome; when close raises, that exception is raised instead
   * and the handles stay as the try block left them.
   */
  lemma FinallyCleansUp<T>(b: Run<T>, o: Oracle)
    ensures var r := Finally(b, o);
      b.trace <= r.trace && r.trace[|b.trace|..] <= Releases(b.handles) &&
      (var closed := r.trace == b.trace + Releases(b.handles) && r.handles == Released;
       (closed ==> r.result == b.result) &&
       (!closed ==> r.result.Err? && r.handles == b.handles && |r.trace| > |b.trace| &&
                    r.result.Exception() == CallError(o, r.trace, |r.trace| - 1)))
  {
    CloseReleasesPresentHandles(b.handles, o, b.trace);
  }

  /**
   * `scrape_courses` runs `close` exactly once, after every step of the try block, on the handles
   * the try block left. When close completes, all handles are absent and the outcome of the try
   * block (its value, or the very exception a step raised) is the outcome; when close raises,
   * that exception is raised instead and the handles stay as the try block left them.
   */
  lemma ScrapeCoursesCleansUp(h: Handles, o: Oracle, t: seq<Event>, client: Client,
                              url: string, instructions: string)
    ensures var b := TryBlock(h, o, t, client, url, instructions);
      var r := ScrapeCourses(h, o, t, client, url, instructions);
      b.trace <= r.trace && r.trace[|b.trace|..] <= Releases(b.handles) &&
      (var closed := r.trace == b.trace + Releases(b.handles) && r.handles == Released;
       (closed ==> r.result == b.result) &&
       (!closed ==> r.result.Err? && r.handles == b.handles && |r.trace| > |b.trace| &&
                    r.result.Exception() == CallError(o, r.trace, |r.trace| - 1)))
  {
    FinallyCleansUp(TryBlock(h, o, t, client, url, instructions), o);
  }

  /** On a new agent, the try block ends holding exactly the handles `init_browser` acquired. */
  lemma FreshTryBlockHandles(o: Oracle, t: seq<Event>, client: Client, url: string, instructions: string)
    ensures var b := TryBlock(Released, o, t, client, url, instructions);
      var started := o.start(|t|).Ok?;
      var launched := started && o.launch(|t| + 1).Ok?;
      b.handles.playwright == (if started then Some(o.start(|t|).value) else None) &&
      b.handles.browser == (if launched then Some(o.launch(|t| + 1).value) else None)
  {
    ScrapeContentInitialises(Released, o, t, url);
  }

  /**
   * After a try block that made no release call, the `finally` clause closes a held browser
   * exactly once and stops a held engine at most once, exactly once when everything ends released.
   */
  lemma FinallyReleasesOnce<T>(t: seq<Event>, b: Run<T>, o: Oracle)
    requires t <= b.trace
    requires CloseBrowserCall !in Calls(b.trace[|t|..]) && StopCall !in Calls(b.trace[|t|..])
    ensures var r := Finally(b, o); var calls := multiset(Calls(r.trace[|t|..]));
      calls[CloseBrowserCall] == (if b.handles.browser.Some? then 1 else 0) &&
      calls[StopCall] <= (if b.handles.playwright.Some? then 1 else 0) &&
      (r.handles == Released ==> calls[StopCall] == (if b.handles.playwright.Some? then 1 else 0)) &&
      (b.handles.browser.Some? ==> CloseBrowser(b.handles.browser.value) in r.trace[|t|..]) &&
      (b.handles.playwright.Some? && r.handles == Released ==> StopEngine(b.handles.playwright.value) in r.trace[|t|..])
  {
    var r := Finally(b, o);
    FinallyCleansUp(b, o);
    var before := b.trace[|t|..];
    var after := r.trace[|b.trace|..];
    assert r.trace[|t|..] == before + after;
    if r.handles == Released && b.handles != Released {
      assert after == Releases(b.handles);
    }
    if b.handles.browser.Some? {
      assert |after| > 0;
    }
    SplitCounts(b.handles, before, after, r.handles == Released);
  }

  /** Release calls in a release-free prefix followed by part of Releases(h). */
  lemma SplitCounts(h: Handles, before: seq<Event>, after: seq<Event>, released: bool)
    requires CloseBrowserCall !in Calls(before) && StopCall !in Calls(before)
    requires after <= Releases(h) && (h.browser.Some? ==> |after| > 0)
    requires released && h != Released ==> after == Releases(h)
    ensures var calls := multiset(Calls(before + after));
      calls[CloseBrowserCall] == (if h.browser.Some? then 1 else 0) &&
      calls[StopCall] <= (if h.playwright.Some? then 1 else 0) &&
      (released ==> calls[StopCall] == (if h.playwright.Some? then 1 else 0)) &&
      (h.browser.Some? ==> CloseBrowser(h.browser.value) in before + after) &&
      (h.playwright.Some? && released ==> StopEngine(h.playwright.value) in before + after)
  {
    CallsAppend(before, after);
    ReleaseCounts(h, after);
    assert multiset(Calls(before))[CloseBrowserCall] == 0;
    assert multiset(Calls(before))[StopCall] == 0;
    if h.browser.Some? {
      assert (before + after)[|before|] == after[0] == CloseBrowser(h.browser.value);
    }
    if h.playwright.Some? && released {
      var n := |after| - 1;
      assert after[n] == StopEngine(h.playwright.value);
      assert (before + after)[|before| + n] == after[n];
    }
  }

  /**
   * On a new agent (the only way the HTTP endpoint uses it), `scrape_courses` closes the browser
   * it launched exactly once and stops the engine it started at most once, and exactly once
   * whenever the agent ends with all handles absent.
   */
  lemma FreshScrapeReleasesOnce(o: Oracle, t: seq<Event>, client: Client, url: string, instructions: string)
    ensures var r := ScrapeCourses(Released, o, t, client, url, instructions);
      var calls := multiset(Calls(r.trace[|t|..]));
      var started := o.start(|t|).Ok?;
      var launched := started && o.launch(|t| + 1).Ok?;
      calls[CloseBrowserCall] == (if launched then 1 else 0) &&
      calls[StopCall] <= (if started then 1 else 0) &&
      (r.handles == Released ==> calls[StopCall] == (if started then 1 else 0)) &&
      (launched ==> CloseBrowser(o.launch(|t| + 1).value) in r.trace[|t|..]) &&
      (started && r.handles == Released ==> StopEngine(o.start(|t|).value) in r.trace[|t|..])
  {
    var b := TryBlock(Released, o, t, client, url, instructions);
    FreshTryBlockHandles(o, t, client, url, instructions);
    TryBlockReleasesNothing(Released, o, t, client, url, instructions);
    FinallyReleasesOnce(t, b, o);
  }
}
