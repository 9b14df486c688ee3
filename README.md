# Sitemap visitor: a Dafny model

This project models the core of a small Node.js service. The service is given
the URL of a sitemap. It resolves that sitemap into a flat list of page URLs,
then opens each page in a headless browser, one after the other, so that the
site renders (and translates) every page once. A shared `taskState` record
reports progress to the web front end.

The model has five modules:

- `Wrappers` (`wrappers.dfy`): `Option`, `Result` and `Outcome`. They stand for
  JavaScript's `null`, thrown errors and rejected promises.
- `Sitemap` (`sitemap.dfy`): `parseSitemap`. A parsed document is a `Doc`. The
  HTTP GET and the XML parser together are one abstract function `Fetch`, from
  a location to `Result<Doc>`. The recursive walk over index documents is
  `Resolve` / `ResolveAll`.
- `Tasks` (`tasks.dfy`): the `taskState` record as a class with its initial
  state.
- `Visits` (`visits.dfy`): `visitAllUrls` as a method with a loop over a
  `TaskState`. The browser is an oracle (`Browser`). It says whether the
  launch and the final close throw, and how the visit of the URL at each
  position goes. Opening the page, navigating or closing the page may throw.
  Ghost counters record the pages opened, the pages closed and the browser close calls.
- `Server` (`server.dfy`): the `POST /process-sitemap` handler and the
  `GET /api/status` projection. The handler answers before the visits finish
  and lets them run in the background. The model splits it the same way:
  `ProcessSitemap` runs up to the redirect, and `VisitPhase` is the
  background call with its `.catch`. `Crawl` runs the two in sequence.

## Model

| member | source | states |
|---|---|---|
| `Sitemap.AsList` | src/sitemap-processor.js:20-35 | (lines 20-22 for `<sitemap>`, 33-35 for `<url>`) normalises the parser's one-or-many children: a lone child becomes the one-element list of that child (never an empty list), an array is kept as it is; only an empty array gives an empty list |
| `Sitemap.Resolve` | src/sitemap-processor.js:10-45 | `parseSitemap`: fetch, then the index branch, the URL-set branch or the format error; fails with the depth bound's error at depth 0, and succeeds only on a fetched document of one of the two shapes. It is characterised by `UrlSetYieldsLocs`, `SingleChildIsKept`, `NeitherShapeFails`, `IndexBeatsUrlSet`, `FetchErrorPropagates`, `IndexIsConcatOfChildren` and the `Deeper…` lemmas |
| `Sitemap.ResolveAll` | src/sitemap-processor.js:24-30 | the accumulator loop over an index's children: no children gives the empty list, and only a non-empty list of children can fail. It is characterised by `ResolveAllAppend`, `ResolveAllIsConcat` and `ResolveAllFirstError` |
| `Sitemap.Locs` | src/sitemap-processor.js:37 | the list has one location per entry, and the location at position i is the `loc` of entry i |
| `Sitemap.UrlSetYieldsLocs` | src/sitemap-processor.js:31-37 | a URL set with n >= 1 entries resolves to exactly n locations, in document order; an empty URL set is a document of neither shape and fails (`NeitherShapeFails`) |
| `Sitemap.SingleChildIsKept` | src/sitemap-processor.js:20-35 | (lines 20-22 and 33-35) a lone `<url>` child yields its one location, and a lone `<sitemap>` child yields exactly what that child resolves to; neither is dropped |
| `Sitemap.NeitherShapeFails` | src/sitemap-processor.js:38-39 | a document with no index children and no URL-set children (this includes an empty root) fails with the format error |
| `Sitemap.IndexBeatsUrlSet` | src/sitemap-processor.js:18-31 | when a document has both shapes, only its index children are resolved |
| `Sitemap.FetchErrorPropagates` | src/sitemap-processor.js:13-15 | an error thrown while fetching or parsing a location is the error of its resolution |
| `Sitemap.IndexIsConcatOfChildren` | src/sitemap-processor.js:18-30 | an index resolves exactly when every child resolves, and then to the children's lists concatenated in document order |
| `Sitemap.ResolveAllAppend` | src/sitemap-processor.js:24-29 | resolving the children `xs + ys` is resolving `xs`, then `ys`: the first error wins, otherwise the lists are joined |
| `Sitemap.ResolveAllIsConcat` | src/sitemap-processor.js:24-30 | the children resolve together exactly when each child resolves, and the result is their lists concatenated in order |
| `Sitemap.ResolveAllFirstError` | src/sitemap-processor.js:27 | a failed index walk fails with the message of the first child that failed, after every earlier child resolved, so no partial list is returned |
| `Sitemap.TwoLevelIndex` | src/sitemap-processor.js:24-37 | an index over two URL sets with M and K entries yields the M locations, then the K locations |
| `Sitemap.DeeperResolvesTheSame` | src/sitemap-processor.js:27 | the model's depth bound only cuts a resolution short: a location that resolves within some depth resolves to the same list at every larger depth |
| `Sitemap.DeeperResolvesAllTheSame` | src/sitemap-processor.js:25-29 | the same for the children of an index |
| `Sitemap.DeeperFailsTheSame` | src/sitemap-processor.js:27 | an error other than the depth bound's own stays the same error at every larger depth, so the bound only ever replaces a result by its own error |
| `Sitemap.DeeperFailsAllTheSame` | src/sitemap-processor.js:25-29 | the same for the children of an index |
| `Tasks.TaskState.constructor` | src/index.js:20-26 | the initial record is not running, has 0 URLs, an empty list, and no current URL or error |
| `Visits.EntryFor` | src/sitemap-processor.js:81-88 | the entry always starts with the URL; it is exactly the URL if and only if the visit succeeded; otherwise the URL is followed by ` (访问出错: `, the message and `)` |
| `Visits.VisitLog` | src/sitemap-processor.js:60-89 | a pass over n URLs produces exactly n entries |
| `Visits.VisitLogInOrder` | src/sitemap-processor.js:60-89 | entry i is the entry for URL i, for every position |
| `Visits.VisitLogStep` | src/sitemap-processor.js:60-89 | each loop iteration appends exactly the current URL's entry |
| `Visits.OneFailureIsolated` | src/sitemap-processor.js:64-89 | when only the visit at k fails, every other URL is recorded as itself, and URL k is recorded with its failure message |
| `Visits.OpenPagesAreFailedNavigations` | src/sitemap-processor.js:66-78 | over any number of visits, the pages opened equal the pages closed plus the failed navigations, so the pages left open are exactly those whose navigation threw |
| `Visits.VisitEach` | src/sitemap-processor.js:60-90 | the loop appends one entry per URL in list order and leaves earlier entries untouched; `currentUrl` ends as the last URL, or is unchanged for an empty list; the ghost counters, bumped where `newPage` returns and where `page.close` is called, equal the tallies of opened and closed pages |
| `Visits.VisitAllUrls` | src/sitemap-processor.js:52-96 | a failed launch rejects with the record untouched; otherwise the browser is closed exactly once after the loop, and `isRunning` is cleared unless that close threw, in which case the call rejects with that close error |
| `Server.ProcessSitemap` | src/index.js:34-72 | a missing URL gets 400 and a running task gets 409, in that order, with the record unchanged; otherwise the record is reset; success sets `totalUrls` to the number of URLs found and keeps running; failure records the error, stops, keeps `totalUrls` at 0 and answers 500 |
| `Server.VisitPhase` | src/index.js:61-65 | after the background visit the task is never running and `totalUrls` is unchanged; a launch failure is recorded as the task's error with the list and `currentUrl` untouched; otherwise one entry per URL is appended, `currentUrl` is the last URL (unchanged for an empty list), and a close failure is recorded as the error |
| `Server.Crawl` | src/index.js:34-72 | 400 and 409 leave the record unchanged; an accepted request always ends with the task stopped; a parse failure leaves 0 URLs, an empty list, no current URL and the error; a launch failure leaves `totalUrls` URLs found, an empty list, no current URL and the launch error; a completed visit leaves one entry per URL found, so `visitedUrls` has `totalUrls` entries, the last URL as `currentUrl`, and the close error if any |
| `Server.Provided` | src/index.js:35-37 | the truthiness test `!sitemapUrl`: an absent field is rejected, and a string is accepted exactly when it is non-empty |
| `Server.Status` | src/index.js:80-88 | the snapshot copies the record's fields, and `visitedCount` is the length of `visitedUrls` |
| `Server.SecondRequestWhileRunning` | src/index.js:20-50 | a fresh record reports an idle task; a request on it is redirected; a second request while the first one's visits are pending gets 409 |

## Left out

- The model does not fetch over HTTP or parse XML text. `Fetch` returns the parsed document, or the message of whatever the GET, the parser or reading an empty parse result threw.
- `Fetch` is a function of the location: every fetch of one location during a resolution sees the same document. The source makes a fresh request each time a location is reached, so a server that changes between requests, or a request that fails only once, is not modelled. For example, an index that lists one child twice always yields that child's list twice.
- The parser delivers an array of children (`Many`) only for two or more children, and an empty root as no children at all (`None`). The datatype also admits `Many` with fewer items, and lemmas such as `TwoLevelIndex` state their results for those values too, but no parsed document contains them.
- Entries without a `<loc>`, and children that the parser delivers as plain text, are not modelled. `Entry` always carries a `loc` string. In the source, `url.loc` would then be `undefined`.
- `Sitemap.Resolve` has a `depth` parameter that the source does not have. When it reaches 0, resolution fails with `DepthExceeded`. The source has no depth or cycle guard: a self-referencing index recurses without end. `DeeperResolvesTheSame` shows that the bound never changes a list that it lets through.
- Visits: the browser is an oracle. There is no Puppeteer. A navigation that times out throws like any other failed `goto`, and the oracle's `Failed(Navigate, msg)` covers it. The 5000 ms and 1000 ms waits are not modelled, since they cannot throw and leave no trace in the record. Pages and the browser are tracked only through ghost counters: pages opened, pages closed and browser close calls.
- Visits: the oracle gives one outcome per position in the URL list. Two visits of the same URL may have different outcomes.
- `console.error` logging is not modelled. Nor is the Express plumbing: the app setup, body parsing, static files, the rendered `/` and `/progress` pages, and `listen`. Responses keep only their status code and error text, or the redirect target.
- Concurrency is not modelled. The background visit is a separate step (`VisitPhase`) that the caller runs after `ProcessSitemap`. Status reads can come only between whole steps.
- The code has no batching, no configurable or random delays, no user-agent or viewport settings, no scrolling that imitates a person, and no pause between recursive sitemap fetches, so the model has none either.
- As in the code, a page is closed only on the success path. A failed launch, or a failed close of the browser, leaves `isRunning` for the handler's `.catch` to clear.
- `sitemapUrl` is an `Option<string>`. "Falsy" means absent or the empty string. Request bodies with other JSON types are not modelled.
