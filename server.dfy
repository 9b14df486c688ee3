/**
 * The two routes of src/index.js that drive and read the task record:
 * `POST /process-sitemap` and `GET /api/status`.
 *
 * The handler answers as soon as the sitemap is resolved and leaves the
 * visit loop running in the background; the model splits it the same way,
 * into `ProcessSitemap` (everything up to the redirect) and `VisitPhase`
 * (the background call with its `.catch`), and `Crawl` runs one after the
 * other. Between the two, a second request finds the task running.
 */
module Server {
  import opened Wrappers
  import opened Sitemap
  import opened Tasks
  import opened Visits

  /** What the handler sends back: a JSON error with its status code, or a redirect. */
  datatype Response = JsonError(status: nat, error: string) | Redirect(location: string)

  const MissingUrl: string := "请提供有效的sitemap URL"
  const AlreadyRunning: string := "任务已在执行中"
  const ParseFailed: string := "解析sitemap出错: "
  const ProgressPage: string := "/progress"

  /**
   * `sitemapUrl` is truthy: an absent field and the empty string are the
   * two values of it that `!sitemapUrl` rejects.
   */
  function Provided(sitemapUrl: Option<string>): (r: bool)
    ensures sitemapUrl.None? ==> !r
    ensures sitemapUrl.Some? ==> (r <==> |sitemapUrl.value| > 0)
  {
    sitemapUrl.Some? && sitemapUrl.value != ""
  }

  /**
   * `POST /process-sitemap` up to its redirect. `pending` holds the URLs
   * handed to the background visit loop when the handler starts one.
   *
   * A missing URL is answered 400 and a running task 409, in that order,
   * with the record untouched. Otherwise the record is reset and the
   * sitemap resolved: on success `totalUrls` is the number of URLs found
   * and the task stays running; on failure the error is recorded, the task
   * stops with no URLs counted, and the answer is 500.
   */
  method ProcessSitemap(state: TaskState, sitemapUrl: Option<string>, fetch: Fetch, depth: nat)
    returns (resp: Response, pending: Option<seq<string>>)
    requires state.Valid()
    modifies state
    ensures state.Valid()
    ensures !Provided(sitemapUrl) ==>
      resp == JsonError(400, MissingUrl) && pending == None && unchanged(state)
    ensures Provided(sitemapUrl) && old(state.isRunning) ==>
      resp == JsonError(409, AlreadyRunning) && pending == None && unchanged(state)
    ensures Provided(sitemapUrl) && !old(state.isRunning) ==>
      && state.visitedUrls == [] && state.currentUrl == None
      && var found := Resolve(fetch, sitemapUrl.value, depth);
      && (found.Ok? ==>
            && resp == Redirect(ProgressPage) && pending == Some(found.value)
            && state.isRunning && state.totalUrls == |found.value| && state.error == None)
      && (found.Err? ==>
            && resp == JsonError(500, ParseFailed + found.msg) && pending == None
            && !state.isRunning && state.totalUrls == 0 && state.error == Some(found.msg))
  {
    if !Provided(sitemapUrl) {
      return JsonError(400, MissingUrl), None;
    }
    if state.isRunning {
      return JsonError(409, AlreadyRunning), None;
    }
    state.isRunning := true;
    state.totalUrls := 0;
    state.visitedUrls := [];
    state.currentUrl := None;
    state.error := None;
    var found := Resolve(fetch, sitemapUrl.value, depth);
    if found.Ok? {
      state.totalUrls := |found.value|;
      resp, pending := Redirect(ProgressPage), Some(found.value);
    } else {
      state.error := Some(found.msg);
      state.isRunning := false;
      resp, pending := JsonError(500, ParseFailed + found.msg), None;
    }
  }

  /**
   * The background `visitAllUrls(urls, taskState).catch(...)`. However
   * the visit loop ends, the task is no longer running afterwards; a
   * rejection (the browser failing to launch or to close) is recorded as
   * the task's error.
   */
  method VisitPhase(state: TaskState, urls: seq<string>, browser: Browser) returns (ghost browserCloses: nat)
    modifies state
    ensures state.Valid() && !state.isRunning
    ensures state.totalUrls == old(state.totalUrls)
    ensures browser.launchError.Some? ==>
      && browserCloses == 0
      && state.error == browser.launchError
      && state.visitedUrls == old(state.visitedUrls)
      && state.currentUrl == old(state.currentUrl)
    ensures browser.launchError.None? ==>
      && browserCloses == 1
      && state.visitedUrls == old(state.visitedUrls) + VisitLog(urls, browser.visit)
      && state.currentUrl == (if urls == [] then old(state.currentUrl) else Some(urls[|urls| - 1]))
      && state.error == (if browser.closeError.Some? then browser.closeError else old(state.error))
  {
    var r;
    ghost var pagesOpened, pagesClosed;
    r, browserCloses, pagesOpened, pagesClosed := VisitAllUrls(urls, state, browser);
    if r.Fail? {
      state.error := Some(r.msg);
      state.isRunning := false;
    }
  }

  /**
   * One request followed, when it was accepted and its sitemap resolved,
   * by the whole background visit. An accepted request always leaves the
   * task stopped; a completed visit has recorded one entry per URL found.
   */
  method Crawl(state: TaskState, sitemapUrl: Option<string>, fetch: Fetch, depth: nat, browser: Browser)
    returns (resp: Response)
    requires state.Valid()
    modifies state
    ensures state.Valid()
    ensures !Provided(sitemapUrl) ==> resp == JsonError(400, MissingUrl) && unchanged(state)
    ensures Provided(sitemapUrl) && old(state.isRunning) ==> resp == JsonError(409, AlreadyRunning) && unchanged(state)
    ensures Provided(sitemapUrl) && !old(state.isRunning) ==> !state.isRunning
    ensures Provided(sitemapUrl) && !old(state.isRunning) ==>
      var found := Resolve(fetch, sitemapUrl.value, depth);
      && (found.Err? ==>
            && resp == JsonError(500, ParseFailed + found.msg)
            && state.totalUrls == 0 && state.visitedUrls == [] && state.currentUrl == None
            && state.error == Some(found.msg))
      && (found.Ok? && browser.launchError.Some? ==>
            && resp == Redirect(ProgressPage)
            && state.totalUrls == |found.value| && state.visitedUrls == [] && state.currentUrl == None
            && state.error == browser.launchError)
      && (found.Ok? && browser.launchError.None? ==>
            && resp == Redirect(ProgressPage)
            && state.totalUrls == |found.value|
            && state.visitedUrls == VisitLog(found.value, browser.visit)
            && |state.visitedUrls| == state.totalUrls
            && state.currentUrl == (if found.value == [] then None else Some(found.value[|found.value| - 1]))
            && state.error == browser.closeError)
  {
    var pending;
    resp, pending := ProcessSitemap(state, sitemapUrl, fetch, depth);
    if pending.Some? {
      ghost var closes := VisitPhase(state, pending.value, browser);
    }
  }

  /** The JSON body of `GET /api/status`. */
  datatype Snapshot = Snapshot(
    isRunning: bool,
    totalUrls: nat,
    visitedCount: nat,
    visitedUrls: seq<string>,
    currentUrl: Option<string>,
    error: Option<string>)

  /**
   * `GET /api/status`: the record's fields as they are, and the number of
   * entries recorded so far.
   */
  function Status(state: TaskState): (s: Snapshot)
    reads state
    ensures s.visitedCount == |s.visitedUrls|
    ensures s.visitedUrls == state.visitedUrls
    ensures s.isRunning == state.isRunning && s.totalUrls == state.totalUrls
    ensures s.currentUrl == state.currentUrl && s.error == state.error
  {
    Snapshot(state.isRunning, state.totalUrls, |state.visitedUrls|, state.visitedUrls, state.currentUrl, state.error)
  }

  /**
   * A fresh record reports an idle task; a request accepted on it is
   * redirected to the progress page, and a second request made while the
   * first one's visits are still pending is refused with 409.
   */
  method SecondRequestWhileRunning(fetch: Fetch, depth: nat, url: string)
    returns (idle: Snapshot, first: Response, second: Response)
    requires url != "" && Resolve(fetch, url, depth).Ok?
    ensures idle == Snapshot(false, 0, 0, [], None, None)
    ensures first == Redirect(ProgressPage)
    ensures second == JsonError(409, AlreadyRunning)
  {
    var state := new TaskState();
    idle := Status(state);
    var pending;
    first, pending := ProcessSitemap(state, Some(url), fetch, depth);
    second, pending := ProcessSitemap(state, Some(url), fetch, depth);
  }
}
