/** The Records API as the controller sees it: the URL of the request for a
    page, and the ways that request can settle. The network call and the JSON
    decoding themselves are not modelled; their result is a FetchOutcome. */
module RecordsApi {

  import opened Wrappers
  import opened JsText

  /** Everything of the request URL before the page number. */
  const UrlPrefix := "http://localhost:3001/api/applications?_page="
  /** Everything after it: the fixed page size of 5. */
  const UrlSuffix := "&_limit=5"

  /** The URL requested for page `pageNum`. */
  function RequestUrl(pageNum: int): string {
    UrlPrefix + IntToDecimal(pageNum) + UrlSuffix
  }

  /** The page number a request URL asks for, if it is one of RequestUrl's URLs. */
  function PageOfUrl(url: string): Option<int> {
    if |url| >= |UrlPrefix| + |UrlSuffix|
       && url[..|UrlPrefix|] == UrlPrefix
       && url[|url| - |UrlSuffix|..] == UrlSuffix
    then
      ParseDecimal(url[|UrlPrefix|..|url| - |UrlSuffix|])
    else
      None
  }

  /** A string is `p + m + q` exactly when it starts with p, ends with q and
      holds m in between. */
  lemma Framed(p: string, m: string, q: string, url: string)
    ensures url == p + m + q <==>
      (|url| >= |p| + |q| && url[..|p|] == p && url[|url| - |q|..] == q
       && url[|p|..|url| - |q|] == m)
  {
  }

  /** A URL names page n exactly when it is the URL built for page n. */
  lemma UrlRoundTrip(n: int, url: string)
    ensures PageOfUrl(url) == Some(n) <==> url == RequestUrl(n)
  {
    var mid := IntToDecimal(n);
    Framed(UrlPrefix, mid, UrlSuffix, url);
    if |url| >= |UrlPrefix| + |UrlSuffix| {
      DecimalRoundTrip(n, url[|UrlPrefix|..|url| - |UrlSuffix|]);
    }
  }

  /** Different pages are never fetched through the same URL. */
  lemma RequestUrlInjective(m: int, n: int)
    ensures RequestUrl(m) == RequestUrl(n) ==> m == n
  {
    UrlRoundTrip(m, RequestUrl(m));
    UrlRoundTrip(n, RequestUrl(m));
  }

  /** The URLs the hook's tests expect for the first two pages. */
  lemma FirstPagesUrls()
    ensures RequestUrl(1) == "http://localhost:3001/api/applications?_page=1&_limit=5"
    ensures RequestUrl(2) == "http://localhost:3001/api/applications?_page=2&_limit=5"
  {
  }

  /** What a catch clause can receive: an Error object (with its message) or
      any other thrown value. */
  datatype Thrown = ErrorMsg(message: string) | NonError

  /** How one request settles. `link` is the value of the `Link` response
      header, None when the header is absent. A body that fails to decode as
      JSON is a Rejected(ErrorMsg(..)). */
  datatype FetchOutcome<R> =
    | Ok(items: seq<R>, link: Option<string>)
    | NotOk
    | Rejected(thrown: Thrown)

  /** The continuation marker searched for in the `Link` header. */
  const NextMarker := "rel=\"next\""

  /** `linkHeader?.includes('rel="next"') || false`. */
  function HasNextPage(link: Option<string>): (b: bool)
    ensures b <==> link.Some? && Contains(link.value, NextMarker)
  {
    match link
    case None => false
    case Some(header) => Includes(header, NextMarker)
  }

  /** An absent header and an empty header both mean there is no next page;
      the headers the tests and a json-server style API send behave as expected. */
  lemma HasNextPageExamples()
    ensures !HasNextPage(None)
    ensures !HasNextPage(Some(""))
    ensures HasNextPage(Some("rel=\"next\""))
    ensures HasNextPage(Some("<http://localhost:3001/api/applications?_page=2&_limit=5>; rel=\"next\""))
  {
    assert OccursAt("rel=\"next\"", NextMarker, 0);
    var header := "<http://localhost:3001/api/applications?_page=2&_limit=5>; rel=\"next\"";
    assert header[|header| - |NextMarker|..] == NextMarker;
    assert OccursAt(header, NextMarker, |header| - |NextMarker|);
  }
}
