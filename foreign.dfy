/**
 * The two libraries the agent talks to, Playwright (the headless-browser engine) and the OpenAI
 * client, as opaque oracles. Every call the agent makes into them is recorded as an Event, and
 * what the call returns, or the exception it raises, is given by an Oracle indexed by the
 * position of the call in the trace of events.
 */
module Foreign {
  import opened Outcomes
  import opened Schema

  /** Opaque handles returned by Playwright: the started engine, a launched browser, a page. */
  datatype Engine = Engine(id: nat)
  datatype Browser = Browser(id: nat)
  datatype Page = Page(id: nat)

  newtype byte = b: int | 0 <= b < 256
  type Bytes = seq<byte>

  /** The keyword arguments of `page.screenshot`; an absent keyword is None. */
  datatype ScreenshotOptions = ScreenshotOptions(path: Option<string>, imageType: Option<string>, fullPage: bool)

  /** The OpenAI client, built once from the configured API key. */
  datatype Client = Client(apiKey: string)

  /** One entry of `completion.choices`; `parsed` is its `message.parsed`, which may be None. */
  datatype Choice = Choice(parsed: Option<CourseList>)

  /** A chat completion; `choices` is None when the object has no usable `choices` attribute. */
  datatype Completion = Completion(choices: Option<seq<Choice>>)

  /** One call into a library, with the arguments the agent passed. */
  datatype Event =
    | StartEngine                                              // async_playwright().start()
    | LaunchBrowser(engine: Engine, headless: bool, args: seq<string>)  // engine.chromium.launch(...)
    | OpenPage(browser: Browser)                               // browser.new_page()
    | QueryClosed(page: Page)                                  // page.is_closed()
    | Goto(page: Page, url: string, waitUntil: string)         // page.goto(url, wait_until=...)
    | WaitForTimeout(page: Page, millis: nat)                  // page.wait_for_timeout(ms)
    | ReadContent(page: Page)                                  // page.content()
    | Screenshot(page: Page, options: ScreenshotOptions)       // page.screenshot(...)
    | CloseBrowser(browser: Browser)                           // browser.close()
    | StopEngine(engine: Engine)                               // engine.stop()
    | CreateCompletion(apiKey: string, model: string, instructions: string,
                       userContent: string, temperature: real) // client.chat.completions.create(...)

  /** The kind of a call, without its arguments. */
  datatype Call =
    | StartCall | LaunchCall | NewPageCall | IsClosedCall | GotoCall | WaitCall
    | ContentCall | ScreenshotCall | CloseBrowserCall | StopCall | CompletionCall

  function CallOf(e: Event): (c: Call) {
    match e
    case StartEngine => StartCall
    case LaunchBrowser(_, _, _) => LaunchCall
    case OpenPage(_) => NewPageCall
    case QueryClosed(_) => IsClosedCall
    case Goto(_, _, _) => GotoCall
    case WaitForTimeout(_, _) => WaitCall
    case ReadContent(_) => ContentCall
    case Screenshot(_, _) => ScreenshotCall
    case CloseBrowser(_) => CloseBrowserCall
    case StopEngine(_) => StopCall
    case CreateCompletion(_, _, _, _, _) => CompletionCall
  }

  /** The kinds of the calls of a trace, in order. */
  function Calls(s: seq<Event>): (r: seq<Call>)
    ensures |r| == |s|
    ensures forall i | 0 <= i < |s| :: r[i] == CallOf(s[i])
  {
    seq(|s|, i requires 0 <= i < |s| => CallOf(s[i]))
  }

  lemma CallsAppend(a: seq<Event>, b: seq<Event>)
    ensures Calls(a + b) == Calls(a) + Calls(b)
  {
    assert forall i | 0 <= i < |a + b| :: Calls(a + b)[i] == (Calls(a) + Calls(b))[i];
  }

  lemma CallsPrefix(a: seq<Event>, b: seq<Event>)
    requires a <= b
    ensures Calls(a) <= Calls(b)
  {
    assert Calls(a) == Calls(b)[..|a|];
  }

  /** A prefix stays a prefix after a common head and with more calls after it. */
  lemma PrefixExtend(p: seq<Call>, a: seq<Call>, b: seq<Call>, c: seq<Call>)
    requires a <= b
    ensures p + a <= p + b + c
  {
    assert p + a == (p + b + c)[..|p + a|];
  }

  /**
   * What the libraries answer: the reply to the call at position n of the trace. `page.is_closed()`
   * does not raise; every other call may.
   */
  datatype Oracle = Oracle(
    start: nat -> Result<Engine>,
    launch: nat -> Result<Browser>,
    newPage: nat -> Result<Page>,
    isClosed: nat -> bool,
    goto: nat -> Result<()>,
    waitForTimeout: nat -> Result<()>,
    content: nat -> Result<string>,
    screenshot: nat -> Result<Bytes>,
    closeBrowser: nat -> Result<()>,
    stop: nat -> Result<()>,
    complete: nat -> Result<Completion>)

  /** The exception raised by call e when it is the n-th call, if it raised one. */
  function ErrorOf(o: Oracle, e: Event, n: nat): (raised: Option<Error>) {
    match e
    case StartEngine => o.start(n).Exception()
    case LaunchBrowser(_, _, _) => o.launch(n).Exception()
    case OpenPage(_) => o.newPage(n).Exception()
    case QueryClosed(_) => None
    case Goto(_, _, _) => o.goto(n).Exception()
    case WaitForTimeout(_, _) => o.waitForTimeout(n).Exception()
    case ReadContent(_) => o.content(n).Exception()
    case Screenshot(_, _) => o.screenshot(n).Exception()
    case CloseBrowser(_) => o.closeBrowser(n).Exception()
    case StopEngine(_) => o.stop(n).Exception()
    case CreateCompletion(_, _, _, _, _) => o.complete(n).Exception()
  }

  /**
   * The libraries as the agent sees them: each method is one call, appends its event to the
   * trace and returns the oracle's reply for that position.
   */
  class Runtime {
    const oracle: Oracle
    var calls: nat
    ghost var trace: seq<Event>

    ghost predicate Valid()
      reads this
    {
      calls == |trace|
    }

    constructor (oracle: Oracle)
      ensures Valid() && this.oracle == oracle && trace == []
    {
      this.oracle := oracle;
      calls := 0;
      trace := [];
    }

    method Start() returns (r: Result<Engine>)
      requires Valid()
      modifies this
      ensures Valid() && trace == old(trace) + [StartEngine] && r == oracle.start(|old(trace)|)
    {
      r := oracle.start(calls);
      calls, trace := calls + 1, trace + [StartEngine];
    }

    method Launch(engine: Engine, headless: bool, args: seq<string>) returns (r: Result<Browser>)
      requires Valid()
      modifies this
      ensures Valid() && trace == old(trace) + [LaunchBrowser(engine, headless, args)]
      ensures r == oracle.launch(|old(trace)|)
    {
      r := oracle.launch(calls);
      calls, trace := calls + 1, trace + [LaunchBrowser(engine, headless, args)];
    }

    method NewPage(browser: Browser) returns (r: Result<Page>)
      requires Valid()
      modifies this
      ensures Valid() && trace == old(trace) + [OpenPage(browser)] && r == oracle.newPage(|old(trace)|)
    {
      r := oracle.newPage(calls);
      calls, trace := calls + 1, trace + [OpenPage(browser)];
    }

    method IsClosed(page: Page) returns (r: bool)
      requires Valid()
      modifies this
      ensures Valid() && trace == old(trace) + [QueryClosed(page)] && r == oracle.isClosed(|old(trace)|)
    {
      r := oracle.isClosed(calls);
      calls, trace := calls + 1, trace + [QueryClosed(page)];
    }

    method Goto(page: Page, url: string, waitUntil: string) returns (r: Result<()>)
      requires Valid()
      modifies this
      ensures Valid() && trace == old(trace) + [Event.Goto(page, url, waitUntil)]
      ensures r == oracle.goto(|old(trace)|)
    {
      r := oracle.goto(calls);
      calls, trace := calls + 1, trace + [Event.Goto(page, url, waitUntil)];
    }

    method WaitForTimeout(page: Page, millis: nat) returns (r: Result<()>)
      requires Valid()
      modifies this
      ensures Valid() && trace == old(trace) + [Event.WaitForTimeout(page, millis)]
      ensures r == oracle.waitForTimeout(|old(trace)|)
    {
      r := oracle.waitForTimeout(calls);
      calls, trace := calls + 1, trace + [Event.WaitForTimeout(page, millis)];
    }

    method Content(page: Page) returns (r: Result<string>)
      requires Valid()
      modifies this
      ensures Valid() && trace == old(trace) + [ReadContent(page)] && r == oracle.content(|old(trace)|)
    {
      r := oracle.content(calls);
      calls, trace := calls + 1, trace + [ReadContent(page)];
    }

    method Screenshot(page: Page, options: ScreenshotOptions) returns (r: Result<Bytes>)
      requires Valid()
      modifies this
      ensures Valid() && trace == old(trace) + [Event.Screenshot(page, options)]
      ensures r == oracle.screenshot(|old(trace)|)
    {
      r := oracle.screenshot(calls);
      calls, trace := calls + 1, trace + [Event.Screenshot(page, options)];
    }

    method CloseBrowser(browser: Browser) returns (r: Result<()>)
      requires Valid()
      modifies this
      ensures Valid() && trace == old(trace) + [Event.CloseBrowser(browser)]
      ensures r == oracle.closeBrowser(|old(trace)|)
    {
      r := oracle.closeBrowser(calls);
      calls, trace := calls + 1, trace + [Event.CloseBrowser(browser)];
    }

    method Stop(engine: Engine) returns (r: Result<()>)
      requires Valid()
      modifies this
      ensures Valid() && trace == old(trace) + [StopEngine(engine)] && r == oracle.stop(|old(trace)|)
    {
      r := oracle.stop(calls);
      calls, trace := calls + 1, trace + [StopEngine(engine)];
    }

    method CreateCompletion(apiKey: string, model: string, instructions: string,
                            userContent: string, temperature: real) returns (r: Result<Completion>)
      requires Valid()
      modifies this
      ensures Valid()
      ensures trace == old(trace) + [Event.CreateCompletion(apiKey, model, instructions, userContent, temperature)]
      ensures r == oracle.complete(|old(trace)|)
    {
      r := oracle.complete(calls);
      calls, trace := calls + 1, trace + [Event.CreateCompletion(apiKey, model, instructions, userContent, temperature)];
    }
  }
}
