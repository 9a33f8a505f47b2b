/** `BrowserTool._run` (src/tools/browser_tool.py): the events it publishes
    and the string it returns. The browser is an outcome given as input:
    either the launch fails, or it succeeds and visiting a URL either fails
    or yields the text of the page (`soup.get_text()` after scripts and
    styles are removed) and the outcome of reading the page title once the
    browser is closed. */
module BrowserTool {
  import opened Wrappers
  import opened EventSystem
  import opened BrowserText
  import Decimal

  datatype PageOutcome =
    | LoadFailed(error: string)
    | Loaded(text: string, title: Result<string, string>)

  datatype BrowserSession =
    | LaunchFailed(error: string)
    | Launched(visit: string -> PageOutcome)

  const NoUrl: string := "No URL found in task description"
  const ErrorPrefix: string := "Error during browser task: "

  /** `str(e)` of the `TypeError` raised by calling
      `notify_citation(source=..., url=..., content=...)`: the parameter is
      named `title`. */
  const SourceKeywordError: string := "EventSystem.notify_citation() got an unexpected keyword argument 'source'"

  function StartStep(taskDescription: string): Event {
    Step("Starting browser task", "Browser Navigation", taskDescription, "Initializing browser")
  }

  function FailureStep(taskDescription: string, errorMsg: string): Event {
    Step("Task failed", "Browser Error", taskDescription, errorMsg)
  }

  function NavigationStep(url: string): Event {
    Step("Navigating to " + url, "Page Load", url, "Loading webpage")
  }

  /** The message of the exception that ends the URL-found path as the
      source is written: the load fails, or reading the title of the closed
      page fails, or else the citation call itself raises. */
  function CitationPathError(page: PageOutcome): (r: string)
    ensures page.LoadFailed? ==> r == page.error
    ensures page.Loaded? && page.title.Err? ==> r == page.title.error
    ensures page.Loaded? && page.title.Ok? ==> r == SourceKeywordError
  {
    match page
    case LoadFailed(e) => e
    case Loaded(_, Err(e)) => e
    case Loaded(_, Ok(_)) => SourceKeywordError
  }

  /** `_run` as written. Every call starts with the same step, published
      before the `try`; every exception inside the `try` becomes the result
      "Error during browser task: ..." after a failure step, so the tool
      always returns a string. The URL is looked for only once the browser
      is up. On the URL-found path the citation call raises, so no citation
      and no "Content Extraction" step is ever published and the result is
      the error string. */
  method Run(taskDescription: string, browser: BrowserSession) returns (published: seq<Event>, result: string)
    ensures |published| >= 2 && published[0] == StartStep(taskDescription)
    ensures result == NoUrl || (|result| >= |ErrorPrefix| && result[..|ErrorPrefix|] == ErrorPrefix)
    ensures browser.LaunchFailed? ==>
      result == ErrorPrefix + browser.error &&
      published == [StartStep(taskDescription), FailureStep(taskDescription, result)]
    ensures browser.Launched? && FindUrl(taskDescription) == None ==>
      result == NoUrl &&
      published == [StartStep(taskDescription), Step("Task failed", "URL Extraction", taskDescription, NoUrl)]
    ensures browser.Launched? && FindUrl(taskDescription).Some? ==>
      var url := FindUrl(taskDescription).value;
      result == ErrorPrefix + CitationPathError(browser.visit(url)) &&
      published == [StartStep(taskDescription), NavigationStep(url), FailureStep(taskDescription, result)]
    ensures forall e :: e in published ==> e.Step?
  {
    published := [StartStep(taskDescription)];
    // try:
    var raised: Option<string> := None;
    match browser {
    case LaunchFailed(e) =>
      raised := Some(e);
    case Launched(visit) =>
      var found := FindUrl(taskDescription);
      if found.Some? {
        var url := found.value;
        published := published + [NavigationStep(url)];
        match visit(url) {
        case LoadFailed(e) =>
          raised := Some(e);
        case Loaded(text, title) =>
          var cleaned := CleanText(text);
          // browser.close(), then the arguments of notify_citation are evaluated
          match title {
          case Err(e) =>
            raised := Some(e);
          case Ok(_) =>
            // the call binds `source=` to a method without such a parameter
            raised := Some(SourceKeywordError);
          }
        }
      } else {
        published := published + [Step("Task failed", "URL Extraction", taskDescription, NoUrl)];
        return published, NoUrl;
      }
    }
    // except Exception as e:
    var errorMsg := ErrorPrefix + raised.value;
    published := published + [FailureStep(taskDescription, errorMsg)];
    result := errorMsg;
  }

  /** `_run` with the citation call as evidently intended: the keyword is
      `title=` and the title is read while the page is open. On a page that
      loads, the citation carries the URL and the preview of the cleaned
      text, a completion step reports its length, and the cleaned text is
      returned. */
  method RunAsIntended(taskDescription: string, browser: BrowserSession) returns (published: seq<Event>, result: string)
    ensures |published| >= 2 && published[0] == StartStep(taskDescription)
    ensures browser.LaunchFailed? ==>
      result == ErrorPrefix + browser.error &&
      published == [StartStep(taskDescription), FailureStep(taskDescription, result)]
    ensures browser.Launched? && FindUrl(taskDescription) == None ==>
      result == NoUrl &&
      published == [StartStep(taskDescription), Step("Task failed", "URL Extraction", taskDescription, NoUrl)]
    ensures browser.Launched? && FindUrl(taskDescription).Some? ==>
      var url := FindUrl(taskDescription).value;
      var (pagePublished, pageResult) := VisitAsIntended(taskDescription, url, browser.visit(url));
      published == [StartStep(taskDescription), NavigationStep(url)] + pagePublished && result == pageResult
  {
    published := [StartStep(taskDescription)];
    match browser {
    case LaunchFailed(e) =>
      result := ErrorPrefix + e;
      published := published + [FailureStep(taskDescription, result)];
    case Launched(visit) =>
      var found := FindUrl(taskDescription);
      if found.Some? {
        var url := found.value;
        published := published + [NavigationStep(url)];
        var (pagePublished, pageResult) := VisitAsIntended(taskDescription, url, visit(url));
        published, result := published + pagePublished, pageResult;
      } else {
        published := published + [Step("Task failed", "URL Extraction", taskDescription, NoUrl)];
        result := NoUrl;
      }
    }
  }

  /** The intended URL-found path after navigation: a page that loads
      yields a citation for the URL with the preview of the cleaned text and
      a completion step with its length, and the cleaned text is returned;
      a failure yields the failure step and the error string. */
  function VisitAsIntended(taskDescription: string, url: string, page: PageOutcome): (r: (seq<Event>, string))
    ensures page.Loaded? && page.title.Ok? ==>
      r.1 == CleanText(page.text) && IsClean(r.1) &&
      r.0 == [Citation(page.title.value, url, Preview(r.1)),
              Step("Completed browser task", "Content Extraction", url,
                   "Successfully extracted " + Decimal.NatToString(|r.1|) + " characters of content")]
    ensures page.LoadFailed? ==> r.1 == ErrorPrefix + page.error && r.0 == [FailureStep(taskDescription, r.1)]
    ensures page.Loaded? && page.title.Err? ==>
      r.1 == ErrorPrefix + page.title.error && r.0 == [FailureStep(taskDescription, r.1)]
  {
    match page
    case LoadFailed(e) => ([FailureStep(taskDescription, ErrorPrefix + e)], ErrorPrefix + e)
    case Loaded(text, Err(e)) => ([FailureStep(taskDescription, ErrorPrefix + e)], ErrorPrefix + e)
    case Loaded(text, Ok(title)) =>
      var cleaned := CleanText(text);
      CleanTextIsClean(text);
      ([Citation(title, url, Preview(cleaned)),
        Step("Completed browser task", "Content Extraction", url,
             "Successfully extracted " + Decimal.NatToString(|cleaned|) + " characters of content")],
       cleaned)
  }

  /** Whenever the description names a URL and the page loads with a
      title, the tool as written publishes no citation and returns the
      keyword error, while as intended it publishes the citation of that URL
      and returns the cleaned text. */
  method CitationLostOnLoadedPage(taskDescription: string, text: string, title: string)
    returns (written: seq<Event>, writtenResult: string, intended: seq<Event>, intendedResult: string)
    requires FindUrl(taskDescription).Some?
    ensures forall e :: e in written ==> !e.Citation?
    ensures writtenResult == ErrorPrefix + SourceKeywordError
    ensures Citation(title, FindUrl(taskDescription).value, Preview(CleanText(text))) in intended
    ensures intendedResult == CleanText(text)
  {
    var browser := Launched(_ => Loaded(text, Ok(title)));
    written, writtenResult := Run(taskDescription, browser);
    intended, intendedResult := RunAsIntended(taskDescription, browser);
  }

  /** The pattern finds the URL of the example description. */
  lemma ExampleComUrl()
    ensures FindUrl("https://example.com") == Some("https://example.com")
  {
    var d := "https://example.com";
    assert PrefixAt(d, 0) == 8;
    RunEndIsMaximal(d, 8, |d|);
    assert MatchAt(d, 0) == Some(|d|);
    assert d[0..|d|] == d;
  }
}
