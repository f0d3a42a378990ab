/**
 * Reference semantics of WebScraperAgent: each operation as a function from the three handles,
 * the oracle and the trace so far to what it returns or raises, the new handles and the new
 * trace. The class in module WebScraper is proved to behave exactly like these functions.
 */
module AgentSpec {
  import opened Outcomes
  import opened Schema
  import opened Foreign
  import Extraction

  const Headless := true
  const LaunchArgs: seq<string> := [
    "--disable-dev-shm-usage", "--no-sandbox", "--disable-setuid-sandbox",
    "--disable-accelerated-2d-canvas", "--disable-gpu", "--no-zygote",
    "--disable-audio-output", "--disable-software-rasterizer", "--disable-webgl",
    "--disable-web-security", "--disable-features=LazyFrameLoading",
    "--disable-features=IsolateOrigins", "--disable-background-networking"]
  const WaitUntil := "load"
  /** The settle delay after the load event, in milliseconds. */
  const SettleMillis: nat := 2000
  /** `screenshot(type="png", full_page=False)`, as in `screenshot_buffer`. */
  const BufferShot := ScreenshotOptions(None, Some("png"), false)
  const LlmModel := "gpt-4"
  const Temperature: real := 0.1

  /** The agent's three nullable fields `playwright`, `browser` and `page`. */
  datatype Handles = Handles(playwright: Option<Engine>, browser: Option<Browser>, page: Option<Page>)

  /** All three handles absent: a new agent, and an agent after a successful close. */
  const Released := Handles(None, None, None)

  /** The outcome of one operation: its return value or exception, the new handles, the new trace. */
  datatype Run<T> = Run(result: Result<T>, handles: Handles, trace: seq<Event>)

  /** `init_browser`: start the engine, launch a browser, open a page, storing each handle as it arrives. */
  ghost function InitBrowser(h: Handles, o: Oracle, t: seq<Event>): (r: Run<()>)
    ensures t < r.trace
  {
    var t1 := t + [StartEngine];
    match o.start(|t|)
    case Err(e) => Run(Err(e), h, t1)
    case Ok(engine) =>
      var h1 := h.(playwright := Some(engine));
      var t2 := t1 + [LaunchBrowser(engine, Headless, LaunchArgs)];
      match o.launch(|t1|)
      case Err(e) => Run(Err(e), h1, t2)
      case Ok(browser) =>
        var h2 := h1.(browser := Some(browser));
        var t3 := t2 + [OpenPage(browser)];
        match o.newPage(|t2|)
        case Err(e) => Run(Err(e), h2, t3)
        case Ok(page) => Run(Ok(()), h2.(page := Some(page)), t3)
  }

  /** The last three lines of `scrape_content`: navigate, wait, read the markup. */
  ghost function LoadAndRead(h: Handles, o: Oracle, t: seq<Event>, url: string): (r: Run<string>)
    ensures t <= r.trace && r.handles == h
  {
    match h.page
    case None => Run(Err(NoneHasNoAttribute("goto")), h, t)
    case Some(p) =>
      var t1 := t + [Goto(p, url, WaitUntil)];
      match o.goto(|t|)
      case Err(e) => Run(Err(e), h, t1)
      case Ok(_) =>
        var t2 := t1 + [WaitForTimeout(p, SettleMillis)];
        match o.waitForTimeout(|t1|)
        case Err(e) => Run(Err(e), h, t2)
        case Ok(_) => Run(o.content(|t2|), h, t2 + [ReadContent(p)])
  }

  /** Whether `scrape_content` (re)initialises: no page, or `page.is_closed()` answers true. */
  ghost function NeedsInit(h: Handles, o: Oracle, t: seq<Event>): (needed: bool) {
    h.page.None? || o.isClosed(|t|)
  }

  /** `scrape_content(url)`: lazily initialise, then load the page and return its markup. */
  ghost function ScrapeContent(h: Handles, o: Oracle, t: seq<Event>, url: string): (r: Run<string>)
    ensures t < r.trace
  {
    var t0 := if h.page.None? then t else t + [QueryClosed(h.page.value)];
    if NeedsInit(h, o, t) then
      var i := InitBrowser(h, o, t0);
      if i.result.Err? then Run(Err(i.result.error), i.handles, i.trace)
      else LoadAndRead(i.handles, o, i.trace, url)
    else
      LoadAndRead(h, o, t0, url)
  }

  /** `take_screenshot(path)`: a full-page screenshot written to `path`, which is returned. */
  ghost function TakeScreenshot(h: Handles, o: Oracle, t: seq<Event>, path: string): (r: Run<string>)
    ensures t <= r.trace && r.handles == h
  {
    match h.page
    case None => Run(Err(NoneHasNoAttribute("screenshot")), h, t)
    case Some(p) =>
      var t1 := t + [Screenshot(p, ScreenshotOptions(Some(path), None, true))];
      match o.screenshot(|t|)
      case Err(e) => Run(Err(e), h, t1)
      case Ok(_) => Run(Ok(path), h, t1)
  }

  /** `screenshot_buffer()`: the PNG bytes of the visible viewport. */
  ghost function ScreenshotBuffer(h: Handles, o: Oracle, t: seq<Event>): (r: Run<Bytes>)
    ensures t <= r.trace && r.handles == h
  {
    match h.page
    case None => Run(Err(NoneHasNoAttribute("screenshot")), h, t)
    case Some(p) => Run(o.screenshot(|t|), h, t + [Screenshot(p, BufferShot)])
  }

  /**
   * `close()`: close the browser if there is one, then stop the engine if there is one, then
   * null all three handles. An exception from either call escapes and leaves the handles as they were.
   */
  ghost function Close(h: Handles, o: Oracle, t: seq<Event>): (r: Run<()>)
    ensures t <= r.trace
  {
    var (closed, t1) :=
      if h.browser.Some? then (o.closeBrowser(|t|), t + [CloseBrowser(h.browser.value)]) else (Ok(()), t);
    if closed.Err? then Run(Err(closed.error), h, t1)
    else
      var (stopped, t2) :=
        if h.playwright.Some? then (o.stop(|t1|), t1 + [StopEngine(h.playwright.value)]) else (Ok(()), t1);
      if stopped.Err? then Run(Err(stopped.error), h, t2)
      else Run(Ok(()), Released, t2)
  }

  /** `process_with_llm(html, instructions, truncate)`: one completion request, then the choice selection. */
  ghost function ProcessWithLlm(h: Handles, o: Oracle, t: seq<Event>, client: Client,
                                html: string, instructions: string, truncate: bool): (r: Run<Option<CourseList>>)
    ensures t < r.trace && r.handles == h
  {
    var t1 := t + [CreateCompletion(client.apiKey, LlmModel, instructions,
                                    Extraction.Payload(html, truncate), Temperature)];
    match o.complete(|t|)
    case Err(e) => Run(Err(e), h, t1)
    case Ok(c) => Run(Ok(Extraction.Select(c)), h, t1)
  }

  /** The `try` block of `scrape_courses`: content, screenshot, extraction, each only after the previous one returned. */
  ghost function TryBlock(h: Handles, o: Oracle, t: seq<Event>, client: Client,
                          url: string, instructions: string): (r: Run<(Option<CourseList>, Bytes)>)
    ensures t < r.trace
  {
    CaptureAndExtract(ScrapeContent(h, o, t, url), o, client, instructions)
  }

  /** The rest of the `try` block once `scrape_content` has come back with c. */
  ghost function CaptureAndExtract(c: Run<string>, o: Oracle, client: Client,
                                   instructions: string): (r: Run<(Option<CourseList>, Bytes)>)
    ensures c.trace <= r.trace && r.handles == c.handles
  {
    if c.result.Err? then Run(Err(c.result.error), c.handles, c.trace)
    else
      var s := ScreenshotBuffer(c.handles, o, c.trace);
      if s.result.Err? then Run(Err(s.result.error), s.handles, s.trace)
      else
        var l := ProcessWithLlm(s.handles, o, s.trace, client, c.result.value, instructions, false);
        if l.result.Err? then Run(Err(l.result.error), l.handles, l.trace)
        else Run(Ok((l.result.value, s.result.value)), l.handles, l.trace)
  }

  /**
   * `scrape_courses(url, instructions)`: the try block, then `close()` in the `finally` clause.
   * An exception from close replaces the outcome of the try block; otherwise that outcome stands.
   */
  ghost function ScrapeCourses(h: Handles, o: Oracle, t: seq<Event>, client: Client,
                               url: string, instructions: string): (r: Run<(Option<CourseList>, Bytes)>)
    ensures t < r.trace
  {
    Finally(TryBlock(h, o, t, client, url, instructions), o)
  }

  /** The `finally: await self.close()` clause after a try block that came back with b. */
  ghost function Finally<T>(b: Run<T>, o: Oracle): (r: Run<T>)
    ensures b.trace <= r.trace
  {
    var c := Close(b.handles, o, b.trace);
    Run(if c.result.Err? then Err(c.result.error) else b.result, c.handles, c.trace)
  }
}
