/**
 * WebScraperAgent: the object that owns the browser engine, the browser and the page, and
 * sequences a scrape. Each method is proved to agree with its reference function in AgentSpec.
 */
module WebScraper {
  import opened Outcomes
  import opened Schema
  import opened Foreign
  import opened AgentSpec
  import Extraction

  class WebScraperAgent {
    var playwright: Option<Engine>
    var browser: Option<Browser>
    var page: Option<Page>
    const client: Client
    /** The libraries this agent calls. */
    const runtime: Runtime

    ghost predicate Valid()
      reads this, runtime
    {
      runtime.Valid()
    }

    /** The three handles as a value. */
    ghost function State(): (h: Handles)
      reads this
    {
      Handles(playwright, browser, page)
    }

    /** `__init__`: no engine, browser or page yet; the client is built from the API key. */
    constructor (runtime: Runtime, apiKey: string)
      requires runtime.Valid()
      ensures Valid() && State() == Released
      ensures this.runtime == runtime && client == Client(apiKey)
    {
      playwright, browser, page := None, None, None;
      client := Client(apiKey);
      this.runtime := runtime;
    }

    method InitBrowser() returns (r: Result<()>)
      requires Valid()
      modifies this, runtime
      ensures Valid()
      ensures var run := AgentSpec.InitBrowser(old(State()), runtime.oracle, old(runtime.trace));
              r == run.result && State() == run.handles && runtime.trace == run.trace
    {
      var started := runtime.Start();
      if started.Err? { return Err(started.error); }
      playwright := Some(started.value);
      var launched := runtime.Launch(started.value, Headless, LaunchArgs);
      if launched.Err? { return Err(launched.error); }
      browser := Some(launched.value);
      var newPage := runtime.NewPage(launched.value);
      if newPage.Err? { return Err(newPage.error); }
      page := Some(newPage.value);
      return Ok(());
    }

    method ScrapeContent(url: string) returns (r: Result<string>)
      requires Valid()
      modifies this, runtime
      ensures Valid()
      ensures var run := AgentSpec.ScrapeContent(old(State()), runtime.oracle, old(runtime.trace), url);
              r == run.result && State() == run.handles && runtime.trace == run.trace
    {
      var reinit := true;
      if page.Some? {
        var closed := runtime.IsClosed(page.value);
        reinit := closed;
      }
      if reinit {
        var initialised := InitBrowser();
        if initialised.Err? { return Err(initialised.error); }
      }
      match page
      case None => return Err(NoneHasNoAttribute("goto"));
      case Some(p) =>
        var loaded := runtime.Goto(p, url, WaitUntil);
        if loaded.Err? { return Err(loaded.error); }
        var waited := runtime.WaitForTimeout(p, SettleMillis);
        if waited.Err? { return Err(waited.error); }
        r := runtime.Content(p);
    }

    method TakeScreenshot(path: string) returns (r: Result<string>)
      requires Valid()
      modifies runtime
      ensures Valid()
      ensures var run := AgentSpec.TakeScreenshot(State(), runtime.oracle, old(runtime.trace), path);
              r == run.result && runtime.trace == run.trace
    {
      match page
      case None => return Err(NoneHasNoAttribute("screenshot"));
      case Some(p) =>
        var shot := runtime.Screenshot(p, ScreenshotOptions(Some(path), None, true));
        if shot.Err? { return Err(shot.error); }
        return Ok(path);
    }

    method ScreenshotBuffer() returns (r: Result<Bytes>)
      requires Valid()
      modifies runtime
      ensures Valid()
      ensures var run := AgentSpec.ScreenshotBuffer(State(), runtime.oracle, old(runtime.trace));
              r == run.result && runtime.trace == run.trace
    {
      match page
      case None => return Err(NoneHasNoAttribute("screenshot"));
      case Some(p) =>
        r := runtime.Screenshot(p, BufferShot);
    }

    method Close() returns (r: Result<()>)
      requires Valid()
      modifies this, runtime
      ensures Valid()
      ensures var run := AgentSpec.Close(old(State()), runtime.oracle, old(runtime.trace));
              r == run.result && State() == run.handles && runtime.trace == run.trace
    {
      if browser.Some? {
        var closed := runtime.CloseBrowser(browser.value);
        if closed.Err? { return Err(closed.error); }
      }
      if playwright.Some? {
        var stopped := runtime.Stop(playwright.value);
        if stopped.Err? { return Err(stopped.error); }
      }
      playwright, browser, page := None, None, None;
      return Ok(());
    }

    method ProcessWithLlm(html: string, instructions: string, truncate: bool) returns (r: Result<Option<CourseList>>)
      requires Valid()
      modifies runtime
      ensures Valid()
      ensures var run := AgentSpec.ProcessWithLlm(State(), runtime.oracle, old(runtime.trace),
                                                  client, html, instructions, truncate);
              r == run.result && runtime.trace == run.trace
    {
      var sent := Extraction.Payload(html, truncate);
      var completion := runtime.CreateCompletion(client.apiKey, LlmModel, instructions, sent, Temperature);
      if completion.Err? { return Err(completion.error); }
      return Ok(Extraction.Select(completion.value));
    }

    method ScrapeCourses(url: string, instructions: string) returns (r: Result<(Option<CourseList>, Bytes)>)
      requires Valid()
      modifies this, runtime
      ensures Valid()
      ensures var run := AgentSpec.ScrapeCourses(old(State()), runtime.oracle, old(runtime.trace),
                                                 client, url, instructions);
              r == run.result && State() == run.handles && runtime.trace == run.trace
    {
      // try
      var outcome: Result<(Option<CourseList>, Bytes)>;
      var html := ScrapeContent(url);
      if html.Err? {
        outcome := Err(html.error);
      } else {
        var screenshot := ScreenshotBuffer();
        if screenshot.Err? {
          outcome := Err(screenshot.error);
        } else {
          var result := ProcessWithLlm(html.value, instructions, false);
          outcome := if result.Err? then Err(result.error) else Ok((result.value, screenshot.value));
        }
      }
      // finally
      var closed := Close();
      r := if closed.Err? then Err(closed.error) else outcome;
    }
  }
}
