# Web scraper agent — a verified model

This project models `WebScraperAgent`, the scraping service of a small course-extraction backend.
The agent drives a headless Chromium through Playwright and a chat-completion model through the
OpenAI client. It holds three nullable handles: the Playwright engine (`playwright`), the browser
and the page. It offers these operations:

- `init_browser` starts the engine, launches a browser and opens a page.
- `scrape_content` initialises lazily, then navigates, waits and returns the page markup.
- `take_screenshot` and `screenshot_buffer` capture the page.
- `close` releases the browser and the engine and nulls all three handles.
- `process_with_llm` sends the markup with the caller's instructions and keeps the first parsed choice.
- `scrape_courses` runs the steps above in a `try/except/finally` that always closes.

Both libraries are opaque oracles (module `Foreign`):

- Every library call is an `Event` carrying the arguments the agent passed.
- The `Runtime` class appends each event to a ghost trace.
- `Runtime` returns the reply of an `Oracle`. An oracle is a record of total functions from the
  position of the call in the trace to a value or an exception.
- Every lemma holds for every oracle, so every way the libraries can answer or raise is covered,
  except that `page.is_closed()` and reading `choices[0].message.parsed` from the completion are
  modelled as never raising.

The model has these layers:

- `Schema`: the records the LLM is asked to fill, `DeeplearningCourse` and
  `DeeplearningCourseList` (`backend/app/services/web_scraper.py:12-20`), as `Course` and
  `CourseList`, and the fallback `DeeplearningCourseList(courses=[])` (line 111) as `NoCourses`.
- `Outcomes`: a call's value or the exception it raised.
- `Foreign`: the library calls, the trace and the oracle that answers them.
- `Extraction`: the pure parts of `process_with_llm`, namely the 150 000-character prefix
  truncation and the "first choice or empty list" selection.
- `AgentSpec`: each operation as a ghost function. It maps (handles, oracle, trace) to the value
  returned or the exception raised, the new handles and the new trace.
- `WebScraper.WebScraperAgent`: the class itself. It has the three `Option` fields, and each
  method is proved to equal its `AgentSpec` function.
- `AgentProperties`: lemmas about the order of calls, stopping at the first exception, lazy
  initialisation, release of handles, exception propagation and the truncation bound.

`StopsAtFirstError(o, t, t', e)` says three things about the calls from trace `t` to `t'`:

- the calls were made one after another;
- every call but the last returned normally;
- the operation raised `e`, which is exactly what its last call raised (or nothing).

The model follows the code of `backend/app/services/web_scraper.py` in these details:

- The markup is read (line 120) before the screenshot is taken (line 121).
- `close` does not catch its own failures (lines 72-75). An exception from `browser.close()` skips
  `playwright.stop()` and leaves the handles as they were. In `scrape_courses`, an exception raised
  by `close` replaces the one the failing step raised.
- `close` never closes the page itself (lines 72-75). It closes the browser and then stops the
  engine.
- `process_with_llm` returns `choices[0].message.parsed` as it is, and that value may be None
  (line 110). Only a missing or empty choice list gives the empty course list (line 111).
- `scrape_courses` calls `process_with_llm` without truncation (line 124).
- No "not ready" check exists. A capture on an agent without a page fails with Python's
  AttributeError on None (`NoneHasNoAttribute`).
- When the page is closed, `scrape_content` re-initialises and overwrites the old engine and
  browser handles without releasing them. The model keeps this
  (`ScrapeContentInitialises`, `TryBlockReleasesNothing`).

## Model

| member | source | states |
|---|---|---|
| `Extraction.Payload` | backend/app/services/web_scraper.py:82-83 | the HTML sent is a prefix of the input; its length is min(\|html\|, 150000) when truncating, and the whole input otherwise |
| `Extraction.Select` | backend/app/services/web_scraper.py:109-111 | with a non-empty `choices` list, the result is the first choice's parsed message; otherwise it is the empty course list |
| `AgentSpec.InitBrowser` | backend/app/services/web_scraper.py:29-50 | initialising always makes at least one call and only appends to the trace |
| `AgentSpec.LoadAndRead` | backend/app/services/web_scraper.py:56-58 | loading never changes the handles and only appends to the trace |
| `AgentSpec.ScrapeContent` | backend/app/services/web_scraper.py:52-58 | `scrape_content` always makes at least one call and only appends to the trace |
| `AgentSpec.TakeScreenshot` | backend/app/services/web_scraper.py:60-63 | taking a screenshot never changes the handles and only appends to the trace |
| `AgentSpec.ScreenshotBuffer` | backend/app/services/web_scraper.py:65-68 | capturing the buffer never changes the handles and only appends to the trace |
| `AgentSpec.Close` | backend/app/services/web_scraper.py:70-78 | closing only appends to the trace |
| `AgentSpec.ProcessWithLlm` | backend/app/services/web_scraper.py:80-111 | the extraction makes a call and never changes the handles |
| `AgentSpec.TryBlock` | backend/app/services/web_scraper.py:118-124 | the try block always makes at least one call |
| `AgentSpec.CaptureAndExtract` | backend/app/services/web_scraper.py:121-124 | the steps after `scrape_content` keep the handles and only append to the trace |
| `AgentSpec.Finally` | backend/app/services/web_scraper.py:130-131 | the `finally` clause only appends to the trace after the try block |
| `AgentSpec.ScrapeCourses` | backend/app/services/web_scraper.py:113-133 | `scrape_courses` always makes at least one call |
| `WebScraper.WebScraperAgent.constructor` | backend/app/services/web_scraper.py:23-27 | a new agent has no engine, browser or page, and its client holds the given API key |
| `WebScraper.WebScraperAgent.InitBrowser` | backend/app/services/web_scraper.py:29-50 | the method's result, new handles and new trace equal `AgentSpec.InitBrowser` of the old state |
| `WebScraper.WebScraperAgent.ScrapeContent` | backend/app/services/web_scraper.py:52-58 | the method equals `AgentSpec.ScrapeContent` of the old state |
| `WebScraper.WebScraperAgent.TakeScreenshot` | backend/app/services/web_scraper.py:60-63 | the method equals `AgentSpec.TakeScreenshot` and leaves the handles alone |
| `WebScraper.WebScraperAgent.ScreenshotBuffer` | backend/app/services/web_scraper.py:65-68 | the method equals `AgentSpec.ScreenshotBuffer` and leaves the handles alone |
| `WebScraper.WebScraperAgent.Close` | backend/app/services/web_scraper.py:70-78 | the method equals `AgentSpec.Close` of the old state |
| `WebScraper.WebScraperAgent.ProcessWithLlm` | backend/app/services/web_scraper.py:80-111 | the method equals `AgentSpec.ProcessWithLlm` and leaves the handles alone |
| `WebScraper.WebScraperAgent.ScrapeCourses` | backend/app/services/web_scraper.py:113-133 | the method equals `AgentSpec.ScrapeCourses` of the old state |
| `AgentProperties.InitBrowserOrder` | backend/app/services/web_scraper.py:29-50 | the call order is start, then launch on that engine with headless and the fixed flags, then new page on that browser; it stops at the first exception, which it raises; on success all three handles are present |
| `AgentProperties.LoadAndReadOrder` | backend/app/services/web_scraper.py:56-58 | the calls are goto(url, "load"), then a 2000 ms wait, then content(), on the held page, stopping at the first exception; the markup returned is what content() gave |
| `AgentProperties.ScrapeContentAsksClosedOnlyOfHeldPage` | backend/app/services/web_scraper.py:54-58 | `is_closed()` is never called when there is no page; with a page it is the first call made and is not called again, even after re-initialising |
| `AgentProperties.ScrapeContentReusesOpenPage` | backend/app/services/web_scraper.py:54-58 | with a page that is not closed, `scrape_content` unfolds to loading after the probe; no engine is started and the handles stay the same |
| `AgentProperties.ScrapeContentInitialises` | backend/app/services/web_scraper.py:54-58 | with no page or a closed page, `scrape_content` unfolds to `init_browser` after the probe, then loading if it returned; the engine start is the first call after the probe (the stop-at-first-exception and order guarantees are `ScrapeContentStopsAtFirstError` and `CallOrderWhenInitialising`) |
| `AgentProperties.ScrapeContentInitialisesIffNoOpenPage` | backend/app/services/web_scraper.py:54-55 | the engine is started if and only if there was no page or the page was closed; otherwise the handles are unchanged |
| `AgentProperties.ScrapeContentStopsAtFirstError` | backend/app/services/web_scraper.py:52-58 | `scrape_content` stops at its first failing call and raises that call's exception |
| `AgentProperties.CallOrderWhenInitialising` | backend/app/services/web_scraper.py:54-58 | when initialising, the calls are a prefix of [is_closed if a page exists, start, launch, new_page, goto, wait, content] |
| `AgentProperties.CallOrderWhenReusing` | backend/app/services/web_scraper.py:54-58 | when reusing, the calls are a prefix of [is_closed, goto, wait, content] |
| `AgentProperties.ScrapeContentCallOrder` | backend/app/services/web_scraper.py:52-58 | the calls are a prefix of: the closed check, then initialisation if needed, then goto, wait, content |
| `AgentProperties.ScrapeContentReturnsMarkup` | backend/app/services/web_scraper.py:56-58 | on success, the last three calls are goto(url, "load"), wait(2000) and content() on the page now held, and the result is content()'s reply |
| `AgentProperties.ScrapeContentReleasesNothing` | backend/app/services/web_scraper.py:52-58 | `scrape_content` never closes the browser or stops the engine, even when it replaces them |
| `AgentProperties.CloseReleasesPresentHandles` | backend/app/services/web_scraper.py:70-78 | the browser is closed only if present, then the engine stopped only if present, stopping at the first exception; on success all handles are absent, on an exception they are unchanged |
| `AgentProperties.CloseTwiceIsClose` | backend/app/services/web_scraper.py:70-78 | a `close` after a successful `close` makes no call and changes nothing |
| `AgentProperties.CloseCallCounts` | backend/app/services/web_scraper.py:70-75 | `close` calls `browser.close()` exactly once if a browser is held, and `stop()` at most once (exactly once when close succeeds and an engine is held) |
| `AgentProperties.ProcessWithLlmSendsPayload` | backend/app/services/web_scraper.py:80-111 | exactly one completion request is made, with the key, "gpt-4", temperature 0.1, the instructions and the truncated or whole HTML; the result is the selection of the reply, or the request's exception |
| `AgentProperties.CaptureAndExtractSteps` | backend/app/services/web_scraper.py:120-124 | after the markup, a PNG viewport screenshot (full_page False) is taken, then the untruncated markup goes to the LLM, stopping at the first exception; success returns the selection and the screenshot bytes |
| `AgentProperties.TryBlockReleasesNothing` | backend/app/services/web_scraper.py:118-124 | no step of the try block closes the browser or stops the engine |
| `AgentProperties.TryBlockSteps` | backend/app/services/web_scraper.py:118-124 | the steps run in the order content, screenshot, LLM, each only after the previous one returned; the exception raised is the failing call's; the handles are those `scrape_content` left |
| `AgentProperties.StepsAfterContent` | backend/app/services/web_scraper.py:120-124 | after any `scrape_content` run that stopped at its first exception, the whole try block still stops at its first exception, keeps the handles, and issues the screenshot and LLM calls only after the markup |
| `AgentProperties.FinallyCleansUp` | backend/app/services/web_scraper.py:130-131 | for any try-block outcome, `close` runs once on the handles left; if it completes, all handles are absent and the outcome is kept, otherwise close's exception replaces it and the handles stay |
| `AgentProperties.ScrapeCoursesCleansUp` | backend/app/services/web_scraper.py:118-133 | `close` runs once, after every step, on the handles left. If it completes, all handles are absent and the try block's value or exception is returned unchanged; otherwise close's exception is raised |
| `AgentProperties.FreshTryBlockHandles` | backend/app/services/web_scraper.py:118-124 | on a new agent, the try block ends holding exactly the engine and browser that `init_browser` obtained |
| `AgentProperties.FinallyReleasesOnce` | backend/app/services/web_scraper.py:130-131 | after a try block with no release call, the held browser is closed exactly once and the held engine stopped at most once, exactly once when all handles end absent |
| `AgentProperties.FreshScrapeReleasesOnce` | backend/app/services/web_scraper.py:113-133 | on a new agent, the launched browser is closed exactly once; the started engine is stopped at most once, and exactly once when the agent ends with all handles absent |

## Left out

- Asynchrony and `nest_asyncio`: each `await` is an ordinary call in sequence, because one scrape is a strictly linear sequence of calls.
- Rendering, HTML serialisation, PNG encoding and model inference: these are the oracle's replies, opaque values or exceptions.
- The system prompt text: the completion event records the caller's instructions and the user message. The fixed wording of the template and the `response_model` argument are not recorded.
- The Chromium launch flags are recorded as a constant list; nothing is proved about what they do.
- The default argument `path="screenshot.png"` of `take_screenshot` (line 60): Dafny has no default arguments, so callers always pass the path.
- The default argument `truncate: bool = False` of `process_with_llm` (line 80): the model takes `truncate` explicitly, and `scrape_courses` passes `false`, which is the value the default gives at line 124.
- `take_screenshot` writing a file: only the screenshot call with its `path` and `full_page=True` is recorded.
- The `print` in the `except` branch: a log line only, with no effect on the outcome.
- `except Exception` versus other `BaseException`s: the branch only re-raises after logging, so the model has a single exception path.
- Truthiness of the handles: a present handle is taken to be truthy, as Playwright objects are.
- `page.is_closed()` is modelled as never raising.
- Reading `completion.choices[0].message.parsed` (line 110) is modelled as never raising: the parsed value is a plain field of the reply.
- Construction of the OpenAI client: the model treats it as unable to fail, and the API key is a constructor parameter, not read from configuration.
- Library replies depend only on the position of the call in the trace. Concurrency between agents and nondeterministic libraries are not modelled.
- HTTP routing, CORS and the mapping of exceptions to HTTP 500 (`backend/app/api/endpoints/courses.py`, `backend/main.py`), settings loading (`backend/app/core/config.py`), the setup script and the React front end are not part of this model.
- FreshScrapeReleasesOnce: gives the exact number of engine stops only when the agent ends with all handles absent. Otherwise it gives an upper bound, because a failing `browser.close()` skips the stop.
