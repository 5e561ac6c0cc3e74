/** The `useApplications` hook: the pagination controller that owns the list
    of fetched application records. Each React state update takes effect at
    once, and the `await` in `fetchApplications` splits the operation into a
    begin step (FetchApplications) and a completion step (Settle). Records are
    opaque: the controller never looks inside them, so they are a type
    parameter. */
module UseApplications {

  import opened Wrappers
  import opened JsText
  import opened RecordsApi

  /** The five pieces of hook state. `error` is `string | null`. */
  datatype State<R> = State(
    applications: seq<R>,
    loading: bool,
    error: Option<string>,
    page: int,
    hasMore: bool)

  /** A request in flight: the page asked for and whether its records are
      appended to, or replace, the current list. */
  datatype Request = Request(pageNum: int, append: bool) {
    function Url(): string {
      RequestUrl(pageNum)
    }
  }

  /** The state of a freshly mounted hook. */
  function Initial<R>(): State<R> {
    State([], true, None, 1, true)
  }

  /** The start of `fetchApplications(pageNum, append)`: the loading flag is
      raised and the request for `pageNum` goes out. As in the hook, `append`
      defaults to false, so the records of the response replace the list. */
  function FetchApplications<R>(s: State<R>, pageNum: int, append: bool := false): (r: (State<R>, Request))
    ensures r.0.loading
    ensures r.0.applications == s.applications && r.0.error == s.error
    ensures r.0.page == s.page && r.0.hasMore == s.hasMore
    ensures r.1.pageNum == pageNum && r.1.append == append
  {
    (s.(loading := true), Request(pageNum, append))
  }

  /** The body of the `try` once the request has settled: the response
      records and the `Link` header on success, or the value thrown. A non-ok
      status throws `new Error('Failed to fetch')`. */
  function Attempt<R>(o: FetchOutcome<R>): (seq<R>, Option<string>, Option<Thrown>) {
    match o
    case Ok(items, link) => (items, link, None)
    case NotOk => ([], None, Some(ErrorMsg("Failed to fetch")))
    case Rejected(thrown) => ([], None, Some(thrown))
  }

  /** The `catch` clause: an Error's message, or a fixed fallback text. */
  function CaughtMessage(t: Thrown): string {
    match t
    case ErrorMsg(message) => message
    case NonError => "An error occurred"
  }

  /** The completion of a fetch started with `append`: the `try` (success),
      the `catch` (failure), then the `finally` that lowers the loading flag. */
  function Settle<R>(s: State<R>, append: bool, o: FetchOutcome<R>): (r: State<R>)
    ensures !r.loading
    ensures r.page == s.page
    ensures o.Ok? && append ==> r.applications == s.applications + o.items
    ensures o.Ok? && !append ==> r.applications == o.items
    ensures o.Ok? ==> (r.hasMore <==> o.link.Some? && Contains(o.link.value, NextMarker))
    ensures o.Ok? ==> r.error == s.error
    ensures !o.Ok? ==> r.applications == s.applications && r.hasMore == s.hasMore
    ensures o.NotOk? ==> r.error == Some("Failed to fetch")
    ensures o.Rejected? && o.thrown.ErrorMsg? ==> r.error == Some(o.thrown.message)
    ensures o.Rejected? && o.thrown.NonError? ==> r.error == Some("An error occurred")
  {
    var (data, linkHeader, thrown) := Attempt(o);
    var afterTry :=
      match thrown
      case None =>
        s.(applications := if append then s.applications + data else data,
           hasMore := HasNextPage(linkHeader))
      case Some(t) =>
        s.(error := Some(CaughtMessage(t)));
    afterTry.(loading := false)
  }

  /** `loadMore()`: unless a fetch is loading or there is no next page, the
      page advances by one and an appending fetch for it starts. The second
      component is the request issued, if any. */
  function LoadMore<R>(s: State<R>): (r: (State<R>, Option<Request>))
    ensures s.loading || !s.hasMore ==> r == (s, None)
    ensures !s.loading && s.hasMore ==>
      && r.1 == Some(Request(s.page + 1, true))
      && r.0 == s.(page := s.page + 1, loading := true)
  {
    if !s.loading && s.hasMore then
      var nextPage := s.page + 1;
      var (s', request) := FetchApplications(s.(page := nextPage), nextPage, true);
      (s', Some(request))
    else
      (s, None)
  }

  /** The URL a fetch requests names exactly the page asked for. */
  lemma FetchUrlNamesPage<R>(s: State<R>, pageNum: int, append: bool)
    ensures PageOfUrl(FetchApplications(s, pageNum, append).1.Url()) == Some(pageNum)
  {
    UrlRoundTrip(pageNum, RequestUrl(pageNum));
  }

  /** The URL `loadMore` requests, when it requests one, names the page after
      the current one. */
  lemma LoadMoreUrlNamesNextPage<R>(s: State<R>)
    requires !s.loading && s.hasMore
    ensures LoadMore(s).1.Some? && PageOfUrl(LoadMore(s).1.value.Url()) == Some(s.page + 1)
  {
    UrlRoundTrip(s.page + 1, RequestUrl(s.page + 1));
  }

  /** A fresh hook is loading and has no records; `loadMore` before the first
      fetch settles does nothing. */
  lemma InitialLoadMoreIsNoOp<R>()
    ensures Initial<R>().applications == [] && Initial<R>().loading
    ensures Initial<R>().error == None && Initial<R>().page == 1 && Initial<R>().hasMore
    ensures LoadMore(Initial<R>()) == (Initial<R>(), None)
  {
  }

  /** A non-ok status is handled exactly like a rejection with
      `Error('Failed to fetch')`. */
  lemma NotOkIsFailedToFetch<R>(s: State<R>, append: bool)
    ensures Settle(s, append, NotOk) == Settle(s, append, Rejected(ErrorMsg("Failed to fetch")))
  {
  }

  /** Two successful appends accumulate both pages in order, with no
      de-duplication; a replacing success forgets everything before it. */
  lemma AppendAccumulates<R>(s: State<R>, a: seq<R>, la: Option<string>, b: seq<R>, lb: Option<string>)
    ensures Settle(Settle(s, true, Ok(a, la)), true, Ok(b, lb)).applications == s.applications + a + b
    ensures Settle(Settle(s, true, Ok(a, la)), false, Ok(b, lb)).applications == b
  {
  }

  /** A stale error survives a later success: only a failure writes `error`. */
  lemma StaleErrorSurvivesSuccess<R>(s: State<R>, t: Thrown, append: bool, items: seq<R>, link: Option<string>)
    ensures Settle(Settle(s, append, Rejected(t)), append, Ok(items, link)).error == Some(CaughtMessage(t))
  {
  }

  /** One operation a consumer of the hook can perform, or the settling of
      the request issued with `append`. */
  datatype Step<R> =
    | CallFetch(pageNum: int, append: bool)
    | Complete(append: bool, outcome: FetchOutcome<R>)
    | CallLoadMore

  /** The effect of one step, with the request it issues, if any. */
  function Apply<R>(s: State<R>, step: Step<R>): (r: (State<R>, Option<Request>))
    ensures !step.CallLoadMore? ==> r.0.page == s.page
    ensures step.CallLoadMore? ==> r.0.page == s.page + (if r.1.Some? then 1 else 0)
    ensures step.Complete? ==> r.1 == None && !r.0.loading
    ensures step.CallFetch? ==> r.1 == Some(Request(step.pageNum, step.append)) && r.0.loading
  {
    match step
    case CallFetch(pageNum, append) =>
      var (s', request) := FetchApplications(s, pageNum, append);
      (s', Some(request))
    case Complete(append, outcome) => (Settle(s, append, outcome), None)
    case CallLoadMore => LoadMore(s)
  }

  /** Steps applied in order; the requests issued, in order. */
  function Run<R>(s: State<R>, steps: seq<Step<R>>): (State<R>, seq<Request>)
    decreases |steps|
  {
    if steps == [] then
      (s, [])
    else
      var (s', issued) := Apply(s, steps[0]);
      var (final, rest) := Run(s', steps[1..]);
      (final, (if issued.Some? then [issued.value] else []) + rest)
  }

  function CountLoadMore<R>(steps: seq<Step<R>>): nat
    decreases |steps|
  {
    if steps == [] then 0 else (if steps[0].CallLoadMore? then 1 else 0) + CountLoadMore(steps[1..])
  }

  /** The page number never decreases and rises by at most one per
      `loadMore` call; with no `loadMore` call it does not change. */
  lemma {:induction false} RunPageBounds<R>(s: State<R>, steps: seq<Step<R>>)
    ensures s.page <= Run(s, steps).0.page <= s.page + CountLoadMore(steps)
    ensures CountLoadMore(steps) == 0 ==> Run(s, steps).0.page == s.page
    decreases |steps|
  {
    if steps != [] {
      RunPageBounds(Apply(s, steps[0]).0, steps[1..]);
    }
  }

  predicate IsFailure<R>(step: Step<R>) {
    step.Complete? && !step.outcome.Ok?
  }

  /** Without a failing completion, `error` keeps its value, however stale. */
  lemma {:induction false} RunKeepsErrorWithoutFailure<R>(s: State<R>, steps: seq<Step<R>>)
    requires forall i :: 0 <= i < |steps| ==> !IsFailure(steps[i])
    ensures Run(s, steps).0.error == s.error
    decreases |steps|
  {
    if steps != [] {
      RunKeepsErrorWithoutFailure(Apply(s, steps[0]).0, steps[1..]);
    }
  }

  /** Once there is no next page, `loadMore` calls issue no request and
      change nothing. */
  lemma {:induction false} LoadMoreIdleWithoutNextPage<R>(s: State<R>, steps: seq<Step<R>>)
    requires !s.hasMore
    requires forall i :: 0 <= i < |steps| ==> steps[i].CallLoadMore?
    ensures Run(s, steps).0 == s && Run(s, steps).1 == []
    decreases |steps|
  {
    if steps != [] {
      assert forall i :: 0 <= i < |steps[1..]| ==> steps[1..][i] == steps[i + 1];
      LoadMoreIdleWithoutNextPage(s, steps[1..]);
      assert Apply(s, steps[0]) == (s, None);
    }
  }

  /** One page of a successful response: its records and its `Link` header. */
  datatype Page<R> = Page(items: seq<R>, link: Option<string>)

  function Flatten<R>(pages: seq<Page<R>>): seq<R>
    decreases |pages|
  {
    if pages == [] then [] else pages[0].items + Flatten(pages[1..])
  }

  /** The user presses "load more" once per page and each request succeeds
      with the next page of `pages`; stops when `loadMore` issues nothing. */
  function LoadPages<R>(s: State<R>, pages: seq<Page<R>>): (State<R>, seq<Request>)
    decreases |pages|
  {
    if pages == [] then
      (s, [])
    else
      var (s1, issued) := LoadMore(s);
      match issued
      case None => (s, [])
      case Some(request) =>
        var s2 := Settle(s1, request.append, Ok(pages[0].items, pages[0].link));
        var (final, rest) := LoadPages(s2, pages[1..]);
        (final, [request] + rest)
  }

  /** The first round of LoadPages from a state ready to load more: the
      state `next` after the first page has settled, and what it keeps. */
  lemma LoadPagesUnfold<R>(s: State<R>, pages: seq<Page<R>>) returns (next: State<R>)
    requires !s.loading && s.hasMore && pages != []
    ensures next.applications == s.applications + pages[0].items
    ensures next.page == s.page + 1 && next.error == s.error && !next.loading
    ensures next.hasMore == HasNextPage(pages[0].link)
    ensures LoadPages(s, pages) == (LoadPages(next, pages[1..]).0, [Request(s.page + 1, true)] + LoadPages(next, pages[1..]).1)
  {
    next := Settle(s.(page := s.page + 1, loading := true), true, Ok(pages[0].items, pages[0].link));
  }

  /** The pages of a run of "load more" clicks: each but the last announces
      a next page. */
  predicate ChainedPages<R>(pages: seq<Page<R>>) {
    forall i :: 0 <= i < |pages| - 1 ==> HasNextPage(pages[i].link)
  }

  lemma ChainedTail<R>(pages: seq<Page<R>>)
    requires ChainedPages(pages) && |pages| >= 2
    ensures HasNextPage(pages[0].link) && ChainedPages(pages[1..])
  {
  }

  /** The records held after loading a chain of pages: the earlier ones,
      then every page's records in server order. */
  lemma {:induction false} LoadPagesRecords<R>(s: State<R>, pages: seq<Page<R>>)
    requires !s.loading && s.hasMore && ChainedPages(pages)
    ensures LoadPages(s, pages).0.applications == s.applications + Flatten(pages)
    decreases |pages|
  {
    if pages != [] {
      var tail := pages[1..];
      var s2 := LoadPagesUnfold(s, pages);
      if tail != [] {
        ChainedTail(pages);
        LoadPagesRecords(s2, tail);
      }
      assert Flatten(pages) == pages[0].items + Flatten(tail);
      assert (s.applications + pages[0].items) + Flatten(tail) == s.applications + (pages[0].items + Flatten(tail));
    }
  }

  /** The flags reached by loading a chain of pages: page advanced once per
      page, error untouched, idle, and `hasMore` from the last header. */
  lemma {:induction false} LoadPagesState<R>(s: State<R>, pages: seq<Page<R>>)
    requires !s.loading && s.hasMore && ChainedPages(pages)
    ensures LoadPages(s, pages).0.page == s.page + |pages|
    ensures LoadPages(s, pages).0.error == s.error
    ensures pages != [] ==>
      !LoadPages(s, pages).0.loading && LoadPages(s, pages).0.hasMore == HasNextPage(pages[|pages| - 1].link)
    decreases |pages|
  {
    if pages != [] {
      var tail := pages[1..];
      var s2 := LoadPagesUnfold(s, pages);
      if tail != [] {
        ChainedTail(pages);
        LoadPagesState(s2, tail);
        assert tail[|tail| - 1] == pages[|pages| - 1];
      }
    }
  }

  /** The requests issued while loading a chain of pages. */
  lemma {:induction false} LoadPagesRequests<R>(s: State<R>, pages: seq<Page<R>>)
    requires !s.loading && s.hasMore && ChainedPages(pages)
    ensures |LoadPages(s, pages).1| == |pages|
    ensures forall i :: 0 <= i < |pages| ==> LoadPages(s, pages).1[i] == Request(s.page + 1 + i, true)
    decreases |pages|
  {
    if pages != [] {
      var tail := pages[1..];
      var s2 := LoadPagesUnfold(s, pages);
      if tail != [] {
        ChainedTail(pages);
        LoadPagesRequests(s2, tail);
      }
    }
  }

  /** Loading pages one after another, each but the last announcing a next
      page, requests the consecutive following pages in append mode, keeps
      every record in server order after the ones already held, leaves
      `hasMore` as the last page's header says and leaves `error` alone. */
  lemma LoadPagesAccumulates<R>(s: State<R>, pages: seq<Page<R>>)
    requires !s.loading && s.hasMore
    requires forall i :: 0 <= i < |pages| - 1 ==> HasNextPage(pages[i].link)
    ensures LoadPages(s, pages).0.applications == s.applications + Flatten(pages)
    ensures LoadPages(s, pages).0.page == s.page + |pages|
    ensures LoadPages(s, pages).0.error == s.error
    ensures |LoadPages(s, pages).1| == |pages|
    ensures forall i :: 0 <= i < |pages| ==> LoadPages(s, pages).1[i] == Request(s.page + 1 + i, true)
    ensures pages != [] ==>
      !LoadPages(s, pages).0.loading && LoadPages(s, pages).0.hasMore == HasNextPage(pages[|pages| - 1].link)
  {
    LoadPagesRecords(s, pages);
    LoadPagesState(s, pages);
    LoadPagesRequests(s, pages);
  }

  /** After a page without a next link no further request is issued: the
      remaining pages are never fetched. */
  lemma {:induction false} NoRequestAfterLastPage<R>(s: State<R>, pages: seq<Page<R>>, k: nat)
    requires k < |pages| && !HasNextPage(pages[k].link)
    ensures LoadPages(s, pages) == LoadPages(s, pages[..k + 1])
    decreases k
  {
    var prefix := pages[..k + 1];
    var (s1, issued) := LoadMore(s);
    if issued.Some? {
      var s2 := Settle(s1, true, Ok(pages[0].items, pages[0].link));
      if k == 0 {
        assert !s2.hasMore;
        LoadMoreIdleOnPages(s2, pages[1..]);
        LoadMoreIdleOnPages(s2, prefix[1..]);
      } else {
        assert prefix[1..] == pages[1..][..k];
        NoRequestAfterLastPage(s2, pages[1..], k - 1);
      }
    }
  }

  /** From a state without a next page, LoadPages does nothing. */
  lemma LoadMoreIdleOnPages<R>(s: State<R>, pages: seq<Page<R>>)
    requires !s.hasMore
    ensures LoadPages(s, pages) == (s, [])
  {
  }

  /** Load more after a first page: `fetchApplications(1)` receives one record
      and a `rel="next"` header; `loadMore` then asks for page 2 in append mode
      and receives one record with an empty `Link` header. Both records remain
      in server order and there is no more to load. */
  lemma TwoPageScenario(a: int, b: int)
    ensures
      var (s1, first) := FetchApplications(Initial<int>(), 1);
      var s2 := Settle(s1, first.append, Ok([a], Some(NextMarker)));
      var (s3, issued) := LoadMore(s2);
      var s4 := Settle(s3, true, Ok([b], Some("")));
      && first == Request(1, false)
      && first.Url() == "http://localhost:3001/api/applications?_page=1&_limit=5"
      && s2.applications == [a] && s2.hasMore && !s2.loading
      && issued == Some(Request(2, true))
      && issued.value.Url() == "http://localhost:3001/api/applications?_page=2&_limit=5"
      && s4.applications == [a, b] && !s4.hasMore && !s4.loading && s4.error == None
  {
  }

  /** A first fetch rejected with `Error('Failed to fetch')` leaves no records,
      the message as the error, and the hook idle. */
  lemma RejectedFirstFetch<R>()
    ensures
      var s := Settle(FetchApplications(Initial<R>(), 1).0, false, Rejected(ErrorMsg("Failed to fetch")));
      s.error == Some("Failed to fetch") && s.applications == [] && !s.loading
  {
  }
}
