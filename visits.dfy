/**
 * The visit loop: `visitAllUrls` of src/sitemap-processor.js.
 *
 * The headless browser is an oracle. It says whether it launches and
 * whether it closes, and for the URL at each position of the list how the
 * visit went: opening the page, navigating (including the settle wait) and
 * closing the page may each throw. The waits themselves leave no trace in
 * the record and are not modelled.
 */
module Visits {
  import opened Wrappers
  import opened Tasks

  /** The step of a page visit that threw. */
  datatype Stage = NewPage | Navigate | ClosePage

  /** How the visit of one URL went. */
  datatype PageVisit = Loaded | Failed(stage: Stage, msg: string)
  {
    /** `browser.newPage()` returned a page. */
    predicate OpensPage() { !(Failed? && stage == NewPage) }

    /** `page.close()` was called: only once the page had loaded. */
    predicate ClosesPage() { Loaded? || stage == ClosePage }
  }

  /**
   * What the browser does during one run: the error `puppeteer.launch`
   * throws, if any; the outcome for the URL at each position; the error
   * `browser.close()` throws, if any.
   */
  datatype Browser = Browser(launchError: Option<string>, visit: nat -> PageVisit, closeError: Option<string>)

  /** The text between a failed URL and its error message. */
  const FailureTag: string := " (访问出错: "

  /** The entry recorded for one URL: the URL itself, or the annotated failure. */
  function EntryFor(url: string, v: PageVisit): (entry: string)
    ensures |entry| >= |url| && entry[..|url|] == url
    ensures entry == url <==> v.Loaded?
    ensures v.Failed? ==> entry[|url|..] == FailureTag + v.msg + ")"
  {
    match v
    case Loaded => url
    case Failed(_, msg) => url + FailureTag + msg + ")"
  }

  /** The entries a full pass over `urls` appends, one per URL. */
  function VisitLog(urls: seq<string>, visit: nat -> PageVisit): (log: seq<string>)
    ensures |log| == |urls|
  {
    if urls == [] then []
    else VisitLog(urls[..|urls| - 1], visit) + [EntryFor(urls[|urls| - 1], visit(|urls| - 1))]
  }

  /** The entry at each position is the one for the URL at that position. */
  lemma {:induction false} VisitLogInOrder(urls: seq<string>, visit: nat -> PageVisit)
    ensures forall i :: 0 <= i < |urls| ==> VisitLog(urls, visit)[i] == EntryFor(urls[i], visit(i))
  {
    if urls != [] {
      var init := urls[..|urls| - 1];
      VisitLogInOrder(init, visit);
      forall i | 0 <= i < |urls| - 1 ensures urls[i] == init[i] { }
    }
  }

  /** What a ghost tally of page operations counts. */
  datatype Tally = PageOpened | PageClosed | NavigationFailed

  /** Whether one visit adds to the tally `t`. */
  predicate Adds(v: PageVisit, t: Tally)
  {
    match t
    case PageOpened => v.OpensPage()
    case PageClosed => v.ClosesPage()
    case NavigationFailed => v.Failed? && v.stage == Navigate
  }

  /** How many of the first `n` visits add to the tally `t`. */
  function Count(visit: nat -> PageVisit, n: nat, t: Tally): nat
  {
    if n == 0 then 0 else Count(visit, n - 1, t) + (if Adds(visit(n - 1), t) then 1 else 0)
  }

  /** A pass over one more URL appends that URL's entry. */
  lemma VisitLogStep(urls: seq<string>, visit: nat -> PageVisit, i: nat)
    requires i < |urls|
    ensures VisitLog(urls[..i + 1], visit) == VisitLog(urls[..i], visit) + [EntryFor(urls[i], visit(i))]
  {
    assert urls[..i + 1][..i] == urls[..i];
  }

  /**
   * Every page opened is either closed or left open by a navigation that
   * threw: the pages left open are exactly the failed navigations.
   */
  lemma {:induction false} OpenPagesAreFailedNavigations(visit: nat -> PageVisit, n: nat)
    ensures Count(visit, n, PageOpened)
            == Count(visit, n, PageClosed) + Count(visit, n, NavigationFailed)
  {
    if n > 0 {
      OpenPagesAreFailedNavigations(visit, n - 1);
    }
  }

  /**
   * One failure does not stop the loop: when only the visit at `k` fails,
   * every other URL is recorded as itself and the URL at `k` is recorded
   * with the failure message.
   */
  lemma OneFailureIsolated(urls: seq<string>, visit: nat -> PageVisit, k: nat)
    requires k < |urls| && visit(k).Failed?
    requires forall i :: 0 <= i < |urls| && i != k ==> visit(i).Loaded?
    ensures |VisitLog(urls, visit)| == |urls|
    ensures forall i :: 0 <= i < |urls| && i != k ==> VisitLog(urls, visit)[i] == urls[i]
    ensures VisitLog(urls, visit)[k] == urls[k] + FailureTag + visit(k).msg + ")"
  {
    VisitLogInOrder(urls, visit);
  }

  /**
   * The `for` loop of `visitAllUrls`: every URL in turn becomes
   * `currentUrl` and gets exactly one entry appended, and a failing visit
   * does not stop the loop. The ghost results count the pages opened and
   * closed.
   */
  method VisitEach(urls: seq<string>, state: TaskState, visit: nat -> PageVisit)
    returns (ghost pagesOpened: nat, ghost pagesClosed: nat)
    modifies state
    ensures state.visitedUrls == old(state.visitedUrls) + VisitLog(urls, visit)
    ensures state.currentUrl == (if urls == [] then old(state.currentUrl) else Some(urls[|urls| - 1]))
    ensures state.isRunning == old(state.isRunning)
    ensures state.totalUrls == old(state.totalUrls) && state.error == old(state.error)
    ensures pagesOpened == Count(visit, |urls|, PageOpened)
    ensures pagesClosed == Count(visit, |urls|, PageClosed)
  {
    pagesOpened, pagesClosed := 0, 0;
    var i := 0;
    while i < |urls|
      invariant 0 <= i <= |urls|
      invariant state.visitedUrls == old(state.visitedUrls) + VisitLog(urls[..i], visit)
      invariant state.currentUrl == (if i == 0 then old(state.currentUrl) else Some(urls[i - 1]))
      invariant state.isRunning == old(state.isRunning)
      invariant state.totalUrls == old(state.totalUrls) && state.error == old(state.error)
      invariant pagesOpened == Count(visit, i, PageOpened)
      invariant pagesClosed == Count(visit, i, PageClosed)
    {
      var url := urls[i];
      state.currentUrl := Some(url);
      var v := visit(i);
      // `browser.newPage()` either throws or opens a page.
      if !(v.Failed? && v.stage == NewPage) {
        pagesOpened := pagesOpened + 1;
        // `page.goto(url)` either throws, skipping `page.close()`, or the
        // page is closed (and that close may throw in turn).
        if !(v.Failed? && v.stage == Navigate) {
          pagesClosed := pagesClosed + 1;
        }
      }
      // Line 81 on success, the `catch` otherwise.
      state.visitedUrls := state.visitedUrls + [EntryFor(url, v)];
      VisitLogStep(urls, visit, i);
      i := i + 1;
    }
    assert urls[..i] == urls;
  }

  /**
   * `visitAllUrls(urls, taskState)`: resolves with `Pass` or rejects with
   * `Fail`; the ghost results count the browser and page close calls.
   *
   * A failed launch rejects before the `try`, with the record untouched.
   * Otherwise the loop runs over every URL, and the `finally` closes the
   * browser once and then clears `isRunning`, unless that close threw, in
   * which case the promise rejects with its message first.
   */
  method VisitAllUrls(urls: seq<string>, state: TaskState, browser: Browser)
    returns (r: Outcome, ghost browserCloses: nat, ghost pagesOpened: nat, ghost pagesClosed: nat)
    modifies state
    ensures state.totalUrls == old(state.totalUrls) && state.error == old(state.error)
    ensures browser.launchError.Some? ==>
      && r == Fail(browser.launchError.value)
      && browserCloses == 0 && pagesOpened == 0
      && state.isRunning == old(state.isRunning)
      && state.visitedUrls == old(state.visitedUrls)
      && state.currentUrl == old(state.currentUrl)
    ensures browser.launchError.None? ==>
      && browserCloses == 1
      && state.visitedUrls == old(state.visitedUrls) + VisitLog(urls, browser.visit)
      && state.currentUrl == (if urls == [] then old(state.currentUrl) else Some(urls[|urls| - 1]))
      && pagesOpened == Count(browser.visit, |urls|, PageOpened)
      && pagesClosed == Count(browser.visit, |urls|, PageClosed)
    ensures browser.launchError.None? && browser.closeError.None? ==> r == Pass && !state.isRunning
    ensures browser.launchError.None? && browser.closeError.Some? ==>
      r == Fail(browser.closeError.value) && state.isRunning == old(state.isRunning)
  {
    if browser.launchError.Some? {
      return Fail(browser.launchError.value), 0, 0, 0;
    }
    pagesOpened, pagesClosed := VisitEach(urls, state, browser.visit);
    browserCloses := 1;
    if browser.closeError.Some? {
      return Fail(browser.closeError.value), browserCloses, pagesOpened, pagesClosed;
    }
    state.isRunning := false;
    r := Pass;
  }
}
