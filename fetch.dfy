/** The requests the scrapers make, with the network and the browser as abstract inputs, and the
    cache-first fetch both scrapers wrap around them: serve the page from the cache if it is fresh,
    otherwise retry the request with backoff and cache the page a successful response brings. */
module Fetch {
  import opened Wrappers
  import opened PyText
  import opened PyValue
  import opened Retry
  import opened Cache

  /** What one HTTP request gives: a response, or an exception from the transport. */
  datatype Response = Response(status: int, text: string) | TransportError

  /** What one browser visit gives: the page content, whether the captcha form is on it and
      whether one of the result containers appeared; or an exception from the browser. */
  datatype BrowserPage = Loaded(content: string, captchaForm: bool, resultsContainer: bool) | BrowserError

  /** One item of the search API's `results`; a missing key is `None`. */
  datatype ApiItem = ApiItem(id: Value, title: Value, permalink: Value, price: Value, currencyId: Value)

  /** The decoded body of an API response: its `results` (empty when missing or empty), or a
      body `response.json()` cannot decode. */
  datatype Json = Object(results: seq<ApiItem>) | Undecodable

  /** What one API request gives: a response, or an `httpx.RequestError`. */
  datatype ApiReply = ApiResponse(status: int, body: Json) | ApiRequestError

  /** Everything outside the program: the answer to the `k`-th attempt at a URL over HTTP and in
      the browser, the API's answer to a query, offset and limit, the clock (one reading per run,
      in microseconds) and the random fraction of each jitter. */
  datatype Network = Network(
    http: (string, nat) -> Response,
    browser: (string, nat) -> BrowserPage,
    api: (string, int, int) -> ApiReply,
    now: int,
    draw: nat -> real)

  /** One call of the `make_request` the HTTP fetchers retry: a 200 returns the body (and is
      cached), a retryable status raises so that it is retried, any other status returns `None`;
      transport errors raise. */
  function HttpAttempt(r: Response): (o: Outcome<Option<string>>)
  {
    match r
    case TransportError => Raised
    case Response(status, text) =>
      if status == 200 then Returned(Some(text))
      else if IsRetryableError(Some(status), None) then Raised
      else Returned(None)
  }

  /** How each kind of response is handled: only a 200 yields a page, only retryable statuses and
      transport errors lead to another attempt. */
  lemma HttpAttemptCases(r: Response)
    ensures HttpAttempt(r).Returned? && HttpAttempt(r).value.Some? <==> r.Response? && r.status == 200
    ensures HttpAttempt(r).Returned? && HttpAttempt(r).value.Some? ==> HttpAttempt(r).value.value == r.text
    ensures HttpAttempt(r).Raised? <==> r.TransportError? || r.status in RetryableStatuses
  {
  }

  /** One call of the browser request: a loaded page is returned (and cached) unless it shows
      the captcha form, mentions "robot" in any letter case, or has no result container, which
      all raise. */
  function BrowserAttempt(p: BrowserPage): (o: Outcome<Option<string>>)
    ensures o.Returned? ==> o.value.Some?
  {
    match p
    case BrowserError => Raised
    case Loaded(content, captcha, found) =>
      if captcha then Raised
      else if Contains(AsciiLower(content), "robot") then Raised
      else if !found then Raised
      else Returned(Some(content))
  }

  lemma BrowserAttemptCases(p: BrowserPage)
    ensures BrowserAttempt(p).Returned? <==>
      p.Loaded? && !p.captchaForm && !Contains(AsciiLower(p.content), "robot") && p.resultsContainer
    ensures BrowserAttempt(p).Returned? ==> BrowserAttempt(p).value == Some(p.content)
  {
  }

  /** The calls the HTTP fetchers retry for `url`. */
  function HttpOp(net: Network, url: string): nat -> Outcome<Option<string>> {
    (k: nat) => HttpAttempt(net.http(url, k))
  }

  /** The calls the browser fetcher retries for `url`. */
  function BrowserOp(net: Network, url: string): nat -> Outcome<Option<string>> {
    (k: nat) => BrowserAttempt(net.browser(url, k))
  }

  /** The page a fetch produced (`None` for no page) and the cache afterwards. */
  datatype Fetched = Fetched(html: Option<string>, files: map<string, CacheFile>)

  /** A cache-first fetch of `url`: a fresh cached page is served with no request; otherwise the
      request is retried with backoff and a page it brings is written to the cache at `now`. */
  function CachedFetch(files: map<string, CacheFile>, url: string, now: int, maxAge: int,
                       op: nat -> Outcome<Option<string>>, maxRetries: int): (r: Fetched)
  {
    match Lookup(files, url, now, maxAge)
    case Some(h) => Fetched(Some(h), files)
    case None =>
      var got := Flatten(RetryResult(op, maxRetries));
      Fetched(got, if got.Some? then files[url := Written(now, got.value)] else files)
  }

  /** A fresh cached page is returned as it is, the cache is untouched, and the request plays no
      part: any other request would give the same. */
  lemma CacheHitNoRequest(files: map<string, CacheFile>, url: string, now: int, maxAge: int,
                          op: nat -> Outcome<Option<string>>, op': nat -> Outcome<Option<string>>, maxRetries: int)
    requires Lookup(files, url, now, maxAge).Some?
    ensures CachedFetch(files, url, now, maxAge, op, maxRetries) == Fetched(Lookup(files, url, now, maxAge), files)
    ensures CachedFetch(files, url, now, maxAge, op, maxRetries) == CachedFetch(files, url, now, maxAge, op', maxRetries)
  {
  }

  /** On a miss, a page the request brings is returned and written for `url` at `now`, so that it
      is served from the cache until `maxAge` has passed; no page leaves the cache as it was. */
  lemma MissWritesPage(files: map<string, CacheFile>, url: string, now: int, maxAge: int,
                       op: nat -> Outcome<Option<string>>, maxRetries: int, later: int)
    requires Lookup(files, url, now, maxAge).None?
    requires now <= later < now + maxAge
    ensures var r := CachedFetch(files, url, now, maxAge, op, maxRetries);
      r.html.Some? ==> Lookup(r.files, url, later, maxAge) == r.html
    ensures var r := CachedFetch(files, url, now, maxAge, op, maxRetries);
      r.html.None? ==> r.files == files
    ensures var r := CachedFetch(files, url, now, maxAge, op, maxRetries);
      forall u :: u != url ==> Lookup(r.files, u, later, maxAge) == Lookup(files, u, later, maxAge)
  {
    var r := CachedFetch(files, url, now, maxAge, op, maxRetries);
    if r.html.Some? {
      SetThenGet(files, url, r.html.value, now, later, maxAge);
      forall u | u != url ensures Lookup(r.files, u, later, maxAge) == Lookup(files, u, later, maxAge) {
        SetOther(files, url, r.html.value, now, u, later, maxAge);
      }
    }
  }

  /** A non-retryable status on the first attempt ends the fetch at once with no page. */
  lemma NonRetryableStops(files: map<string, CacheFile>, url: string, net: Network, maxAge: int, maxRetries: int)
    requires Lookup(files, url, net.now, maxAge).None? && maxRetries >= 0
    requires net.http(url, 0).Response? && net.http(url, 0).status != 200
    requires net.http(url, 0).status !in RetryableStatuses
    ensures CachedFetch(files, url, net.now, maxAge, HttpOp(net, url), maxRetries) == Fetched(None, files)
  {
    RetryFirstCallReturns(HttpOp(net, url), maxRetries);
  }

  /** When every allowed attempt raises, the fetch gives no page and the cache is unchanged. */
  lemma AllAttemptsRaise(files: map<string, CacheFile>, url: string, now: int, maxAge: int,
                         op: nat -> Outcome<Option<string>>, maxRetries: int)
    requires Lookup(files, url, now, maxAge).None?
    requires forall k :: 0 <= k < Attempts(maxRetries) ==> op(k).Raised?
    ensures CachedFetch(files, url, now, maxAge, op, maxRetries) == Fetched(None, files)
  {
  }

  /** The cache-first fetch as the scrapers run it: `cache.get`, then `retry_with_backoff` over
      the request, with `cache.set` when a page arrives. */
  method CachedFetchFrom(cache: FileCache, url: string, net: Network, op: nat -> Outcome<Option<string>>, maxRetries: int)
    returns (html: Option<string>)
    modifies cache
    ensures Fetched(html, cache.files) == CachedFetch(old(cache.files), url, net.now, cache.maxAge, op, maxRetries)
  {
    var hit := cache.Get(url, net.now);
    if hit.Some? {
      return hit;
    }
    var result, _, _ := RetryWithBackoff(op, maxRetries, 1.0, 2.0, true, net.draw);
    html := Flatten(result);
    if html.Some? {
      cache.Set(url, html.value, net.now);
    }
  }
}
