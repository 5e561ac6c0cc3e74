# useApplications pagination controller — Dafny model

This project models the `useApplications` React hook of a loan-applications
listing UI. The hook is a pagination controller. It owns the list of fetched
application records and the flags `loading`, `error`, `page` and `hasMore`.
It requests pages from a Records API and appends or replaces records. It also
guards "load more" behind `!loading && hasMore`.

The model is functional. `State<R>` is an immutable datatype, and the records
are an opaque type parameter `R`. Each React state update takes effect at
once. The `await` in `fetchApplications` is split into two transitions:
`FetchApplications` raises `loading` and issues a `Request` (its `append`
argument defaults to false, as in the hook), and `Settle`
applies one `FetchOutcome`. The three outcomes are `Ok(items, link)`, `NotOk`
and `Rejected(ErrorMsg(message) | NonError)`. `LoadMore` returns the new
state and the request it issued, if any. `Step`/`Run` replay any sequence of
hook calls and completions, and `LoadPages` models repeated "load more"
clicks that each succeed.

Two pieces of JavaScript behaviour are modelled in `JsText`:
- `String.prototype.includes`, as the recursive `Includes`, proved equal to a
  declarative `Contains`;
- integer-to-decimal rendering in template literals (`IntToDecimal`), exact for
  integers of magnitude below 2^53, with a parser `ParseDecimal` proved to be
  its exact inverse.

`RecordsApi` builds the request URL `http://localhost:3001/api/applications?_page=<n>&_limit=5`.
It also has the inverse parser `PageOfUrl` and the `Link`-header test `HasNextPage`.

Two behaviours of the code worth noting:
- `error` is never cleared by a later success; the code never resets it, and
  `StaleErrorSurvivesSuccess` proves the stale error remains.
- `page` advances when `loadMore` issues its request. It is not "the last
  successfully requested page": a failed fetch does not roll it back.

## Model

| member | source | states |
|---|---|---|
| UseApplications.InitialLoadMoreIsNoOp | src/hooks/useApplications.ts:15-44 | a fresh hook has no records, is loading, has no error, is on page 1 with more to load; `loadMore` then returns the same state and issues no request |
| UseApplications.FetchApplications | src/hooks/useApplications.ts:21-26 | starting a fetch sets `loading`, leaves records, error, page and `hasMore` unchanged, and issues a request for the given page with the given append flag, which defaults to false |
| UseApplications.FetchUrlNamesPage | src/hooks/useApplications.ts:24-26 | the URL a started fetch requests decodes back to exactly the requested page |
| UseApplications.Settle | src/hooks/useApplications.ts:21-41 | after any outcome `loading` is false and `page` is unchanged; success appends (or, without append, replaces with) the response records in order, sets `hasMore` iff the header is present and contains `rel="next"`, and leaves `error` alone; a non-ok status gives "Failed to fetch", an Error its message, any other value "An error occurred", all three leaving records and `hasMore` unchanged |
| UseApplications.LoadMore | src/hooks/useApplications.ts:43-49 | while loading or without a next page nothing changes and no request is issued; otherwise page becomes page+1, loading becomes true, and exactly one append request for page+1 is issued |
| UseApplications.LoadMoreUrlNamesNextPage | src/hooks/useApplications.ts:45-47 | when `loadMore` passes its guard, the URL it requests decodes to the page after the current one |
| UseApplications.NotOkIsFailedToFetch | src/hooks/useApplications.ts:28-37 | a non-ok response settles exactly like a rejection with `Error('Failed to fetch')` |
| UseApplications.AppendAccumulates | src/hooks/useApplications.ts:34 | two appending successes give the old records then both pages in order with no de-duplication; a replacing success leaves only its own records |
| UseApplications.StaleErrorSurvivesSuccess | src/hooks/useApplications.ts:34-37 | a success after a failure keeps the failure's message in `error` |
| UseApplications.Apply | src/hooks/useApplications.ts:21-49 | only a `loadMore` call can change the page, by exactly one and only when it issues a request; a completion issues nothing and ends not loading; a direct fetch call issues exactly its request and is loading |
| UseApplications.RunPageBounds | src/hooks/useApplications.ts:43-47 | over any sequence of calls and completions the page never decreases and grows by at most the number of `loadMore` calls; without such calls it is unchanged |
| UseApplications.RunKeepsErrorWithoutFailure | src/hooks/useApplications.ts:34-37 | over any sequence with no failing completion, `error` keeps its initial value |
| UseApplications.LoadMoreIdleWithoutNextPage | src/hooks/useApplications.ts:43-44 | with no next page, any number of `loadMore` calls changes nothing and issues no request |
| UseApplications.LoadPagesAccumulates | src/hooks/useApplications.ts:34-47 | loading successive pages, each but the last with a next link, requests pages page+1, page+2, … in append mode, ends with the old records followed by every page's records in order, page advanced by the number of pages, `hasMore` from the last header, idle, and `error` untouched |
| UseApplications.LoadPagesRecords | src/hooks/useApplications.ts:34 | after a chain of "load more" rounds the records are the earlier ones followed by every page's records in server order |
| UseApplications.LoadPagesState | src/hooks/useApplications.ts:35-46 | after a chain of "load more" rounds the page has advanced once per page, `error` is untouched, the hook is idle and `hasMore` follows the last page's header |
| UseApplications.LoadPagesRequests | src/hooks/useApplications.ts:45-47 | a chain of "load more" rounds issues one append request per page, for pages page+1, page+2, … in order |
| UseApplications.NoRequestAfterLastPage | src/hooks/useApplications.ts:35-44 | once a page arrives without a next link, the pages after it are never requested |
| UseApplications.TwoPageScenario | src/hooks/useApplications.test.ts:207-246 | `fetchApplications(1)` requests `..._page=1&_limit=5` without append and receives one record and `rel="next"`; `loadMore` then requests `..._page=2&_limit=5` in append mode and, receiving one record with an empty `Link` header, ends with both records in order, `hasMore` false, idle, no error |
| UseApplications.RejectedFirstFetch | src/hooks/useApplications.test.ts:45-61 | a first fetch rejected with `Error('Failed to fetch')` leaves that message, no records, and `loading` false |
| RecordsApi.HasNextPage | src/hooks/useApplications.ts:31-35 | true exactly when the `Link` header is present and contains `rel="next"` as a substring |
| RecordsApi.HasNextPageExamples | src/hooks/useApplications.test.ts:165-205 | an absent or empty header means no next page; `rel="next"` alone or at the end of a full Link header means there is one |
| RecordsApi.UrlRoundTrip | src/hooks/useApplications.ts:24-26 | a URL decodes to page n exactly when it is the URL built for page n |
| RecordsApi.RequestUrlInjective | src/hooks/useApplications.ts:24-26 | two different page numbers never produce the same request URL |
| RecordsApi.FirstPagesUrls | src/hooks/useApplications.test.ts:37-39 | the URLs for pages 1 and 2 are the literal strings the tests expect |
| JsText.Includes | src/hooks/useApplications.ts:32 | the substring search answers true exactly when the needle occurs at some offset of the header |
| JsText.NatToDecimal | src/hooks/useApplications.ts:25 | a non-negative page number renders as at least one decimal digit, with a leading zero only for 0 |
| JsText.NatToDecimalValue | src/hooks/useApplications.ts:25 | the rendered digits denote the number rendered |
| JsText.DecimalValueToNat | src/hooks/useApplications.ts:25 | every canonical digit string is the rendering of its own value |
| JsText.RenderThenParse | src/hooks/useApplications.ts:25 | parsing the rendering of any integer gives that integer back |
| JsText.ParseThenRender | src/hooks/useApplications.ts:25 | any string that parses is the rendering of the integer it parses to |
| JsText.DecimalRoundTrip | src/hooks/useApplications.ts:25 | parsing gives n exactly for the rendering of n, for every integer n including negatives |

## Left out

- The network call and JSON decoding (`fetch`, `response.json()`): a response is an abstract `FetchOutcome`, and a decoding failure is a `Rejected(ErrorMsg(..))`.
- A JSON body that is not an array: records are a sequence by construction. In the hook, a replacing fetch stores such a body unchanged; an appending fetch spreads it inside the state updater, outside the `try`, which throws for a non-iterable body.
- The `Link` header lookup itself (case-insensitive header names): the header value is given as an `Option<string>`.
- Asynchronous interleaving: overlapping fetches, completion order, and the stale-closure race between rapid `loadMore` calls. Each step is atomic, and the request a completion settles is given with it.
- Page numbers that are not integers: `pageNum` is an `int`.
- Integers of magnitude 2^53 and above: JavaScript numbers lose precision there. `page + 1` stops advancing at 2^53, while `LoadMore` always adds one. A template literal prints the shortest digits that round-trip (`${2**64}` is "18446744073709552000") and switches to exponent notation from 1e21, while `IntToDecimal` prints every digit.
- The UI components `Applications`, `SingleApplication` and `App`: they only render. `Applications` currently renders a fixture and does not use the hook.
- The formatting helpers (`formatCurrency`, `formatDate`, `formatName`): their source `src/helpers/singleApplication` is not part of this model, and they depend on locale and date libraries.
- The fixture records and the records' fields: the controller never inspects a record.
