# Ethical Amazon scraper — a verified model of its core

This project models the part of the scraper that decides *which* products come out of a search, and proves
properties of that model. Two scrapers are covered: one for Amazon and one for MercadoLibre (Colombia).
Each scraper fetches result pages through a funnel of strategies, with an on-disk cache and
retries with exponential backoff. It checks that a page is a real results page, pulls a product
record out of each listing item through ordered lists of CSS selectors, validates and cleans every
record, and collects the pages one after another. At the end it keeps one record per id. The
command-line entry point caps the number of pages at ten and runs the scrapers the user chose,
Amazon first. A scraper that raises is skipped, and the combined list is de-duplicated once more,
this time keeping the first record of each id.

Modules, in dependency order:

- `Wrappers`, `Seqs`: `Option`, `Outcome` (returned or raised) and small sequence facts.
- `PyText`, `PyNum`, `PyValue`: the pieces of Python the core relies on. This covers `str.strip`,
  `in` on strings, `split`, `replace`, `float()`/`int()` on text, truthiness and `str()`. Values are
  modelled as `None | str | int | float`.
- `Products`: product records (a map from the eight field names to values), and `_deduplicate`,
  which keeps the last record per id in the order ids first appear.
- `Validation`: `validate_product_data`.
- `Cache`: `FileCache`, a class whose `files` map stands for the cache directory.
- `Retry`: `retry_with_backoff` and `is_retryable_error`.
- `Fetch`: the cached, retried fetch both scrapers use, and the one-attempt behaviour of the
  HTTP request, the browser session and the search API.
- `Html`: the parsed document as the core queries it (first match, all matches, attributes,
  stripped text), and "first selector that gives something".
- `Patterns`: the regular expressions of the core, written as scanning functions.
- `Listing`: turning the items of a page into records, skipping those that yield none.
- `Paging`: the page loop shared by both `search_products`.
- `Amazon`: the `AmazonScraper` class and the functions that specify its methods.
- `MercadoLibre`: the `MercadoLibreScraper` class and the functions that specify its methods.
- `MainScript`: `get_user_input`'s page cap, the platform choice, `smart_deduplicate` and `main_logic`.

Each method that changes state is proved against a function of the old state. Examples:
`SearchProducts` returns `Search(...)` of the cache as it was and leaves the cache as the page loop
leaves it, and `FileCache.Set` leaves `old(files)[url := Written(now, html)]`. The properties the
core promises are then proved about those functions.

## Model

| member | source | states |
|---|---|---|
| Validation.Validate | debug_utils.py:140-153 | a record is accepted exactly when its id is truthy with a non-blank `str()`, and its title is a non-blank string |
| Validation.ValidateFields | debug_utils.py:140-202 | the accepted record's fields: the stripped id text; the stripped title cut to 200 characters; the cleaned url, rating and review count; source and currency copied; price present unless it is negative |
| Validation.ValidateClean | debug_utils.py:131-202 | every accepted record is clean: non-blank trimmed id, title of 1 to 200 characters, url `None` or a trimmed http(s) address, rating in [0, 5], review count at least 0, price `None` or at least 0 |
| Validation.CleanIdOf | debug_utils.py:143-144 | the stored id is non-empty and has no surrounding white space |
| Validation.CleanTitleOf | debug_utils.py:149-151 | the stored title has 1 to 200 characters and does not start with white space |
| Validation.TextIdPresence | debug_utils.py:143-146 | a text id is accepted exactly when it is not blank |
| Validation.TextTitlePresence | debug_utils.py:149-153 | a text title is accepted exactly when it is not blank |
| Validation.LongTitleCut | debug_utils.py:151 | a stripped title longer than 200 characters is cut to exactly 200 |
| Validation.CleanPriceRange | debug_utils.py:155-165 | the price key is dropped exactly for a convertible negative price; it is `None` for a missing or unconvertible price; otherwise it is `float(price)`, which is then at least 0, whatever the price's type |
| Validation.CleanReadPrice | debug_utils.py:156-165 | a price that was not read is stored as `None`, a non-negative one as itself, and a negative one is dropped |
| Validation.CleanUrlRange | debug_utils.py:167-176 | the url is kept, stripped, exactly when it is text whose stripped form starts with `http://` or `https://`; otherwise it is `None` |
| Validation.CleanRatingRange | debug_utils.py:181-189 | the rating is the float value exactly when it converts and lies in [0, 5]; otherwise it is `None` |
| Validation.CleanReviewCountRange | debug_utils.py:190-198 | the review count is the int value exactly when it converts and is at least 0; otherwise it is `None` |
| Validation.RevalidateClean | debug_utils.py:131-202 | validating a clean record accepts it again and keeps id, source, currency, url, rating and review count; the title is stripped once more, and a record whose price key was dropped comes back with price `None` |
| Cache.Lookup | debug_utils.py:216-228 | a hit exactly when the url has a well-formed entry younger than the maximum age; the hit is the stored page |
| Cache.LookupUnset | debug_utils.py:216-228 | a url never written is a miss |
| Cache.SetThenGet | debug_utils.py:216-233 | a page just written is found again while it is younger than the maximum age |
| Cache.SetThenExpire | debug_utils.py:222 | once the maximum age has passed the entry is a miss |
| Cache.SetOther | debug_utils.py:230-233 | writing one url leaves the answer for every other url unchanged |
| Cache.CorruptMiss | debug_utils.py:225-228 | an entry whose JSON does not parse or lacks a key is a miss, not an error |
| Cache.FileCache.constructor | debug_utils.py:207-210 | the maximum age is the given number of hours, and the cache holds the stored files |
| Cache.FileCache.Get | debug_utils.py:216-228 | returns the lookup of the url at the current time; a hit is the page stored for that url |
| Cache.FileCache.Set | debug_utils.py:230-233 | the cache afterwards is the old one with the url's entry replaced by the page, stamped now |
| Retry.RetryWithBackoff | debug_utils.py:88-127 | at most `max_retries + 1` calls; the result is the value of the first call that returns, or `None` when all raise; one wait follows each failed call but the last, and wait `k` is `Wait(k)` |
| Retry.FirstReturnSpec | debug_utils.py:109-118 | the call found returns and every earlier call raised; none is found exactly when every call raised |
| Retry.RetryResultSpec | debug_utils.py:104-127 | the result is `None` exactly when every allowed call raised; otherwise it is the value of an allowed call |
| Retry.RetryFirstCallReturns | debug_utils.py:109-112 | when the first call returns, its value is the result, whatever later calls would do |
| Retry.WaitBounds | debug_utils.py:120-122 | every wait lies between the exponential delay and the delay plus ten percent, and equals the delay without jitter |
| Retry.DelayGrowth | debug_utils.py:120 | each delay is the previous one times the backoff factor, so with a factor of at least one the delays never shrink |
| Retry.RetryableStatusWins | debug_utils.py:335-338 | a status in {429, 502, 503, 504, 520 to 524} is retryable whatever the exception |
| Retry.OtherStatusDefers | debug_utils.py:337-348 | any other status, or none, leaves the answer to the exception alone |
| Retry.StatusOnly | debug_utils.py:335-348 | without an exception the answer is exactly membership of the status in that set |
| Retry.NamedExceptionRetryable | debug_utils.py:341-346 | an exception whose type text contains one of the six names is retryable |
| Retry.UnnamedExceptionNotRetryable | debug_utils.py:341-348 | an exception whose type text contains none of them is not retryable, unless the status is |
| Retry.ReadTimeoutRetryable | debug_utils.py:342-346 | `<class 'httpx.ReadTimeout'>` is retryable even with a 404 status |
| Fetch.HttpAttemptCases | amazon_scraper.py:104-115 | one request returns the body exactly on a 200; it raises exactly on a transport error or a retryable status; any other status returns `None` |
| Fetch.BrowserAttemptCases | amazon_scraper.py:169-208 | one browser session returns the page exactly when it loaded with no captcha form, no "robot" in the lower-cased page and a results container |
| Fetch.CacheHitNoRequest | amazon_scraper.py:98-100 | on a cache hit the cached page is returned, the cache is unchanged and the network is never consulted |
| Fetch.MissWritesPage | amazon_scraper.py:104-110 | on a miss, a fetched page is cached and found again while it is fresh; a failed fetch leaves the cache alone; other urls are never affected |
| Fetch.NonRetryableStops | amazon_scraper.py:111-115 | a first answer with a non-retryable status other than 200 gives `None` and writes nothing |
| Fetch.AllAttemptsRaise | amazon_scraper.py:117-122 | when every attempt raises, the fetch gives `None` and the cache is unchanged |
| Fetch.CachedFetchFrom | amazon_scraper.py:95-122 | the page returned and the cache afterwards are `CachedFetch` of the cache before |
| Html.TryInOrder | amazon_scraper.py:264-267 | the selector loop's answer is what the first selector that gives something gives |
| Html.FirstSomeSpec | amazon_scraper.py:264-271 | nothing is found exactly when no selector gives anything; what is found is what some selector gives |
| Html.FirstSomeAt | amazon_scraper.py:264-267 | when selector `i` is the first that gives something, its answer is the loop's answer |
| Html.FirstMatchesEmpty | amazon_scraper.py:227 | no container items exactly when no selector matches anything |
| Listing.CollectSpec | amazon_scraper.py:229-233 | the records are exactly those the items yield: each comes from an item, and every item that yields one contributes it |
| Listing.CollectClean | amazon_scraper.py:229-233 | when every record an item can yield is clean, so is every record of a page, and each has an id |
| Patterns.FirstNumber | amazon_scraper.py:294 | no match exactly when the text has no digit |
| Patterns.FirstNumberParses | amazon_scraper.py:294-296 | the match is the number at the first digit, and `float()` accepts it |
| Patterns.NumberBeforeOutOf | amazon_scraper.py:314 | no match exactly when no digit run is followed by optional white space and `out of` |
| Patterns.FirstDigitCommaRun | amazon_scraper.py:335 | no match exactly when there is no digit or comma; a match is a non-empty run of digits and commas |
| Patterns.RemoveCommasDigits | amazon_scraper.py:337 | a run of digits and commas is all digits once the commas are gone, so `int()` accepts it |
| Patterns.SiteId | mercadolibre_scraper.py:248 | no match exactly when `MLA` or `MCO` followed by a digit occurs nowhere |
| Patterns.SiteIdShape | mercadolibre_scraper.py:248-250 | a match is `MLA` or `MCO` and a full digit run, at the first place where such an id starts |
| Patterns.SiteIdOfPath | mercadolibre_scraper.py:248-250 | in `/MCO123`, the id found is `MCO123` |
| Paging.PagesVisited | amazon_scraper.py:43-54 | when a page step never fails, no page raises; every page is visited unless the first page is empty, which stops the search after one page |
| Paging.PagesHaveIds | amazon_scraper.py:43-54 | when every step's records carry an `id` key, so do the records of all pages |
| Paging.PagesFailed | amazon_scraper.py:42-45 | an exception raised by a page's funnel call leaves the search: the records so far are discarded and the failure is marked |
| Paging.PagesEmptyFirst | amazon_scraper.py:52-54 | an empty first page ends the search with no records |
| Paging.PagesNext | amazon_scraper.py:51-54 | any other page contributes its records before those of the following pages |
| Products.DeduplicateByIdSpec | amazon_scraper.py:381-382 | `_deduplicate` gives, for each id in order of its first appearance, the last record with that id |
| Products.DeduplicateByIdProperties | amazon_scraper.py:381-382 | the result has distinct ids and every input id; each record is the last of its id, and the records keep first-appearance order |
| Products.DeduplicateDistinct | amazon_scraper.py:381-382 | records with distinct ids come back unchanged |
| Products.OrderedKeysByFirst | amazon_scraper.py:382 | dictionary keys come out in the order in which each key first appeared |
| Amazon.GetUrl | amazon_scraper.py:372-376 | every search address is an http(s) address that starts with the Amazon base address, followed by `/s?k=` for desktop and `/gp/aw/s?k=` for mobile |
| Amazon.GetUrlPagesDiffer | amazon_scraper.py:372-376 | different pages of one query have different addresses |
| Amazon.GetUrlMobileDiffers | amazon_scraper.py:372-376 | the mobile and desktop addresses of a page differ |
| Amazon.Resolve | amazon_scraper.py:351-352 | a link with a scheme other than `https`, and an absolute http(s) address, are kept as they are; any other link is placed under the site, so the result is an http(s) address unless the link has a foreign scheme |
| Amazon.ScriptLinkKept | amazon_scraper.py:351-352 | a `javascript:` link comes back from `urljoin` unchanged |
| Amazon.InvalidPages | amazon_scraper.py:236-245 | a page with the captcha form, or with "No results for" in its first heading, is invalid; a page with neither form nor heading is valid |
| Amazon.ParsePage | amazon_scraper.py:217-234 | the page is reported invalid exactly when `_is_valid_page` rejects it, and then gives no records; otherwise the records are those of the items under the first result selector that matches |
| Amazon.ParsePageHasIds | amazon_scraper.py:217-234 | every record of a parsed page carries an `id` key |
| Amazon.ProductInfoYieldsClean | amazon_scraper.py:247-370 | every record an item yields is clean and has source "Amazon" |
| Amazon.WholeAndFractionPrice | amazon_scraper.py:281-289 | whole and fraction texts of digits (and commas in the whole) give the price `whole.fraction` with the commas dropped |
| Amazon.PriceTextPrice | amazon_scraper.py:290-299 | a price text with a digit gives the float of its first number once the commas are gone |
| Amazon.RatingTextCases | amazon_scraper.py:310-323 | a rating text gives a rating exactly when it has a digit; a number before `out of` wins over the first number |
| Amazon.ReviewTextNonNegative | amazon_scraper.py:331-340 | a review count read from text is never negative |
| Amazon.ProductPageIsHttp | amazon_scraper.py:355-356 | the fallback link `base_url/dp/asin` is an http(s) address |
| Amazon.UrlChainResolved | amazon_scraper.py:342-353 | a link found by the url selectors is an http(s) address, or an item's own `href` with a foreign scheme |
| Amazon.ProductOfPresence | amazon_scraper.py:248-271 | an item yields a record exactly when it has an asin and a title, neither of them blank |
| Amazon.RawPresence | amazon_scraper.py:358-369 | the raw record is accepted exactly when asin and title are not blank |
| Amazon.ProductOfFields | amazon_scraper.py:342-369 | the record carries the stripped asin as id, the title cut to 200, source "Amazon", the currency found, the cleaned rating and review count; its url is the found link or the `/dp/` page, stripped, when that is an http(s) address and `None` otherwise (never `None` for the `/dp/` page); its price is `None` when none was read, the price when it is not negative, and left out when it is negative |
| Amazon.RawFields | amazon_scraper.py:358-369 | the accepted raw record's id, title, source, currency, url, rating, review count and price as validation makes them |
| Amazon.ProductOfClean | amazon_scraper.py:358-370 | a record built from an item is clean and has source "Amazon" |
| Amazon.ProductInfoPresence | amazon_scraper.py:247-271 | no asin, or no title from any selector, means no record; with both, a record exactly when neither is blank |
| Amazon.ProductInfoFields | amazon_scraper.py:247-370 | a record's id is the stripped asin, its title the first title found and cut to 200, its source "Amazon"; its url is an http(s) address, or `None` only when the item's link has a foreign scheme and is not an http address |
| Amazon.ProductInfoClean | amazon_scraper.py:247-370 | every record of an item is clean |
| Amazon.Usable | amazon_scraper.py:67-71 | a strategy's page counts only when it is valid and has records, so a counted result is never empty |
| Amazon.UsableHasIds | amazon_scraper.py:67-71 | the records of a counted page carry an `id` key |
| Amazon.FunnelOrder | amazon_scraper.py:60-93 | the strategies run in the order desktop, mobile, browser, each only when the ones before gave nothing; an empty result means all three were tried; the desktop page's records are taken when usable, else the mobile page's when usable, else the browser page's when usable, else `[]`, with the strategies tried and the cache each case leaves |
| Amazon.FunnelHasIds | amazon_scraper.py:60-93 | every record the funnel returns carries an `id` key, so `_deduplicate`'s `p["id"]` never raises |
| Amazon.BrowserServedFromCache | amazon_scraper.py:124-127 | the browser strategy is served from the cache whenever the desktop fetch stored a page, since both share one address |
| Amazon.FunnelStepProperties | amazon_scraper.py:60-93 | a funnel step never fails (it never raises), and its records carry an `id` key |
| Amazon.SearchPagesVisited | amazon_scraper.py:43-54 | the search never stops on a failure; it visits every page unless the first page gives no records, and then it visits only that one |
| Amazon.SearchOutcome | amazon_scraper.py:37-58 | the search result is the de-duplication of all pages' records, which all carry an `id` key |
| Amazon.SearchProperties | amazon_scraper.py:37-58 | the result's records carry an `id` key and have distinct ids, and every id found on any page is in the result |
| Amazon.AmazonScraper.constructor | amazon_scraper.py:33-35 | a fresh cache with the default maximum age of four hours |
| Amazon.AmazonScraper.FetchWithHttpx | amazon_scraper.py:95-122 | the page and new cache are the cached fetch of the desktop or mobile address with 3 retries |
| Amazon.AmazonScraper.FetchWithPlaywright | amazon_scraper.py:124-215 | the page and new cache are the cached fetch of the desktop address through the browser with 2 retries |
| Amazon.AmazonScraper.ExtractProductInfo | amazon_scraper.py:247-370 | the record is `ProductInfo(item)` |
| Amazon.AmazonScraper.ParseHtml | amazon_scraper.py:217-234 | returns `ParsePage` of the parsed page |
| Amazon.AmazonScraper.ExtractAll | amazon_scraper.py:229-233 | the loop collects `Collect(items, ProductInfo)` |
| Amazon.AmazonScraper.UsablePage | amazon_scraper.py:67-71 | returns `Usable` of the fetched page |
| Amazon.AmazonScraper.HttpxStrategy | amazon_scraper.py:66-72 | one HTTP strategy: the usable records of the cached fetch, and the cache it leaves |
| Amazon.AmazonScraper.BrowserStrategy | amazon_scraper.py:84-90 | the browser strategy: the usable records of the cached browser fetch, and the cache it leaves |
| Amazon.AmazonScraper.ExecuteStrategyFunnel | amazon_scraper.py:60-93 | the records, the strategies tried and the new cache are `Funnel` of the old cache |
| Amazon.AmazonScraper.AfterDesktop | amazon_scraper.py:74-93 | once the desktop page gave nothing: the mobile page's records when usable, else the browser's, else `[]`, with the strategies tried and the cache as `MobileThenBrowser` gives them |
| Amazon.AmazonScraper.FunnelPage | amazon_scraper.py:43-54 | one iteration of the page loop: an empty first page ends the search; any other page's records come before those of the remaining pages |
| Amazon.AmazonScraper.AllPages | amazon_scraper.py:42-54 | the loop's records and the cache afterwards are those of the page run `Pages` from page 1 |
| Amazon.AmazonScraper.SearchProducts | amazon_scraper.py:37-58 | returns `Search` of the cache as it was, and leaves the cache as the page loop leaves it |
| MercadoLibre.GetUrlPagesDiffer | mercadolibre_scraper.py:288-294 | different pages of one query have different listing addresses |
| MercadoLibre.PageSuffixDiffer | mercadolibre_scraper.py:290-294 | the page suffixes (none for page 1, `_Desde_` and the first result's position otherwise) differ between pages |
| MercadoLibre.ApiDataCases | mercadolibre_scraper.py:77-91 | the API gives results exactly on a 200 with a JSON body; a 200 whose body is not JSON raises; anything else gives `None` |
| MercadoLibre.ApiProductsFields | mercadolibre_scraper.py:122-139 | every API result becomes a record, in order and none dropped, with id, title, link, price and currency copied, source "MercadoLibre" and no rating or review count |
| MercadoLibre.NoResultsPageMissed | mercadolibre_scraper.py:170-176 | a page whose text is the correctly accented "no results" notice passes the check as written and is rejected by the intended check |
| MercadoLibre.PriceAsWrittenThousands | mercadolibre_scraper.py:233-237 | as written, `w.ggg` (one thousands separator) is read as the decimal `w.ggg` |
| MercadoLibre.PriceAsWrittenCents | mercadolibre_scraper.py:235-237 | as written, `w.f` with one or two decimals loses its point and is read as `wf` |
| MercadoLibre.ThousandsMisread | mercadolibre_scraper.py:233-237 | the as-written and intended rules disagree on every non-zero price with one thousands separator |
| MercadoLibre.PriceThousands | mercadolibre_scraper.py:233-237 | with the intended rule, `w.ggg` is read as `w * 1000 + ggg` |
| MercadoLibre.PriceDecimal | mercadolibre_scraper.py:235-237 | with the intended rule, `w.f` with one or two decimals is read as that decimal |
| MercadoLibre.PriceGroups | mercadolibre_scraper.py:233-234 | with two dots or more every dot is dropped, and a text without a dot is read as it is |
| MercadoLibre.SegmentId | mercadolibre_scraper.py:254-255 | a piece of the address gives an id exactly when it is longer than five characters and does not start with "http"; the id is the prefix of the piece up to its first `-`, or the whole piece when it has none |
| MercadoLibre.FallbackIdCases | mercadolibre_scraper.py:252-256 | the fallback id is empty exactly when no piece qualifies; otherwise it comes from the first qualifying piece |
| MercadoLibre.SegmentChain | mercadolibre_scraper.py:253-256 | the fallback loop finds nothing exactly when no piece gives an id; otherwise it gives the id of some piece |
| MercadoLibre.HostAsId | mercadolibre_scraper.py:246-256 | for an absolute address without an `MLA`/`MCO` id followed by a digit, the fallback takes the host name (up to its first `-`) as the product id, so all such items of one host share an id |
| MercadoLibre.ProductIdOfPath | mercadolibre_scraper.py:246-250 | an address `/MCO123` gives the id `MCO123` |
| MercadoLibre.ProductOfPresence | mercadolibre_scraper.py:200-202 | an item yields a record exactly when it has a title and an id, neither blank |
| MercadoLibre.ProductOfFields | mercadolibre_scraper.py:274-286 | the record's stripped id, title cut to 200, source "MercadoLibre", currency, no rating or review count, the url when it is an http(s) address, and the price as validation keeps it |
| MercadoLibre.ProductOfClean | mercadolibre_scraper.py:274-286 | a record built from an item is clean and has source "MercadoLibre" |
| MercadoLibre.ImgTitleFirst | mercadolibre_scraper.py:188-193 | a non-empty image `title` attribute ends the title search with its stripped text, so a blank one makes the item yield nothing |
| MercadoLibre.ProductInfoPresence | mercadolibre_scraper.py:188-217 | no title from any source, or no link from any selector, means no record |
| MercadoLibre.ProductInfoYieldsClean | mercadolibre_scraper.py:178-286 | every record an item yields is clean and has source "MercadoLibre" |
| MercadoLibre.ParsePageCases | mercadolibre_scraper.py:141-176 | a page counts as parsed exactly when it passes `_is_valid_page` as written (no misspelt notice in its text) and some container selector matches; otherwise it gives no records; a parsed page gives at most one record per item |
| MercadoLibre.NoticePageParsed | mercadolibre_scraper.py:141-176 | a page whose text is the correctly spelt "no results" notice is still parsed as a results page when a container selector matches |
| MercadoLibre.ItemPriceThousands | mercadolibre_scraper.py:228-237 | an item whose first price text is `w.ggg` gets the price `w.ggg` as a decimal, so "150.000" becomes 150.0 |
| MercadoLibre.ParsePageHasIds | mercadolibre_scraper.py:141-168 | every record of a parsed page carries an `id` key |
| MercadoLibre.Usable | mercadolibre_scraper.py:67-71 | the listing page counts only when it is valid and has records, so a counted result is never empty |
| MercadoLibre.UsableHasIds | mercadolibre_scraper.py:67-71 | the records of a counted page carry an `id` key |
| MercadoLibre.FunnelOrder | mercadolibre_scraper.py:51-75 | the API is asked first and the listing page is fetched only when the API gave no records; the funnel raises exactly on an undecodable 200; API records are taken when there are any; otherwise the API and the listing page are tried, and the result is the listing page's usable records, or `[]` |
| MercadoLibre.FunnelHasIds | mercadolibre_scraper.py:51-75 | every record the funnel returns carries an `id` key, so `_deduplicate`'s `p["id"]` never raises; an API record's id may be `None` |
| MercadoLibre.FunnelStepProperties | mercadolibre_scraper.py:51-75 | a funnel step's records carry an `id` key (an API record's id may be `None`), and when the API's answers always decode, the step never fails |
| MercadoLibre.SearchOutcome | mercadolibre_scraper.py:30-49 | the search raises when a page raised; otherwise it returns the de-duplication of all pages' records, which all carry an `id` key (an API record's id may be `None`) |
| MercadoLibre.SearchProperties | mercadolibre_scraper.py:30-49 | a returned result's records carry an `id` key (an API record's id may be `None`) and have distinct ids, and the result holds every id found on any page |
| MercadoLibre.SearchPagesVisited | mercadolibre_scraper.py:36-45 | when the API's answers always decode, the search returns and visits every page, unless the first page gives no records and it stops there |
| MercadoLibre.SearchRaisesOnUndecodable | mercadolibre_scraper.py:57-59 | a 200 whose body is not JSON on the first API request makes the whole search raise |
| MercadoLibre.MercadoLibreScraper.constructor | mercadolibre_scraper.py:25-28 | the base address ends with the country code, and the cache is fresh with the default maximum age |
| MercadoLibre.MercadoLibreScraper.FetchWithApi | mercadolibre_scraper.py:77-91 | returns `ApiData` of the API's answer for the query, offset `(page - 1) * 50` and limit 50 |
| MercadoLibre.MercadoLibreScraper.FetchWithHtml | mercadolibre_scraper.py:93-120 | the page and new cache are the cached fetch of the listing address with 3 retries |
| MercadoLibre.MercadoLibreScraper.ParseApiData | mercadolibre_scraper.py:122-139 | the loop builds `ApiProducts(results)` |
| MercadoLibre.MercadoLibreScraper.ExtractProductInfo | mercadolibre_scraper.py:178-286 | the record is `ProductInfo(item)`, whose price follows the dot rule as written |
| MercadoLibre.MercadoLibreScraper.ParseHtml | mercadolibre_scraper.py:141-176 | returns `ParsePage` of the parsed page, with the validity check as written |
| MercadoLibre.MercadoLibreScraper.ExtractAll | mercadolibre_scraper.py:161-165 | the loop collects `Collect(items, ProductInfo)` |
| MercadoLibre.MercadoLibreScraper.UsablePage | mercadolibre_scraper.py:67-71 | returns `Usable` of the fetched page |
| MercadoLibre.MercadoLibreScraper.HtmlStrategy | mercadolibre_scraper.py:65-72 | the listing strategy: the usable records of the cached fetch, and the cache it leaves |
| MercadoLibre.MercadoLibreScraper.ExecuteStrategyFunnel | mercadolibre_scraper.py:51-75 | the outcome, the strategies tried and the new cache are `Funnel` of the old cache |
| MercadoLibre.MercadoLibreScraper.SearchProducts | mercadolibre_scraper.py:30-49 | returns `Search` of the cache as it was (raising when a page raised), and leaves the cache as the page loop leaves it |
| MainScript.PageCap | main.py:58 | the page count is at most ten and at most the requested count, and it is one of the two |
| MainScript.GetUserInput | main.py:43-58 | choice and query are kept; the pages are the requested count when it is at most ten, else ten |
| MainScript.SelectedCases | main.py:147-151 | "1" runs Amazon, "2" MercadoLibre, "3" Amazon then MercadoLibre, and any other choice runs nothing |
| MainScript.GatherMembers | main.py:161-174 | the combined list holds exactly the records of the scrapers that returned |
| MainScript.GatherSkipsRaised | main.py:163-173 | a scraper that raises contributes nothing: leaving it out gives the same combined list |
| MainScript.GatherAppend | main.py:161-168 | each scraper's records are added after those of the scrapers before it |
| MainScript.SelectScrapers | main.py:147-151 | the scrapers built for a choice are `Selected(choice)` |
| MainScript.RunScrapers | main.py:153-174 | every scraper runs, in order, and the combined records are `Gather` of their outcomes |
| MainScript.FirstByIdComplete | main.py:132-139 | every truthy input id is kept, and every kept record has a truthy id |
| MainScript.FirstByIdFirst | main.py:132-139 | each kept record is the first with its id, and the kept records are in the order of first appearance |
| MainScript.FirstByIdSpec | main.py:132-139 | the result has truthy, distinct ids; each record is the first input record with its id; first-appearance order is kept; every truthy input id is present |
| MainScript.FirstWinsLastWins | main.py:137-138 | for two records with one id, `smart_deduplicate` keeps the first while `_deduplicate` keeps the last |
| MainScript.SmartDeduplicate | main.py:132-139 | the dictionary loop returns `FirstById(products)` |
| MainScript.MainLogic | main.py:142-176 | runs exactly the selected scrapers in order, and its final list is `FirstById` of the combined records |
| MainScript.MainLogicProperties | main.py:142-176 | the final records have truthy, distinct ids and come from the combined list; every truthy id any returning scraper found is present |

## Left out

- User interface: the header, the prompts' own re-asking on bad input, the progress bar, the results table and the Excel export (`print_header`, `display_results_table`, `export_to_excel`). `get_user_input` is modelled from its returned values on.
- Logging, request headers and user agents, saving debug HTML, `check_dependencies` and `handle_critical_error`: none of them changes a result.
- Concurrency and `async`: each scraper is modelled as the sequential run it is. Sleeping between retries is recorded as a list of waits, not performed.
- The network, the browser and the clock are parameters (`Network`): the answer to each attempt, the API's answer, one clock reading per run and the random fraction of each jitter. Playwright's navigation, timeouts and stealth scripts become the three facts a browser page is checked for.
- The HTML parser is abstract: a document gives its first match and all matches per selector, and an element gives its text, its stripped text and its attributes. CSS selector matching itself is not modelled.
- The cache directory is a map from address to entry. MD5 file naming is not modelled, so two addresses never share a file. Files on which `get` raises instead of missing are left out: the model has only well-formed entries and entries whose JSON does not parse or lacks a key. Those left out are a malformed timestamp (`ValueError`), a file that is not valid UTF-8 (`UnicodeDecodeError`), and JSON that is not an object or a timestamp that is not a string (`TypeError`). `get` catches only `JSONDecodeError` and `KeyError` (debug_utils.py:225), and the `cache.get` call in `_fetch_with_httpx` (amazon_scraper.py:99) sits outside any `try`, so such a file would make the fetch raise.
- Python `float()`/`int()` on text accept an optional sign, ASCII digits and (for floats) one point, after stripping white space. Exponents, `inf`/`nan`, underscores and non-ASCII digits are not modelled. Floats are exact decimals, so rounding is not modelled.
- MercadoLibre API items that are not objects, and a decoded body that is not an object, are not modelled (`item.get` would raise). The `api_url` constant is not modelled: the API is the `Network.api` parameter, asked with query, offset and limit.
- The MercadoLibre scraper's `base_url` is stored but never read. Listing addresses always use the Colombian host, as `_get_url` does, whatever the country code.
- When an Amazon page has no `h1, .a-row`, the source takes the text of an empty `Node()`. The model takes that text to be empty, so such a page counts as valid and an empty document parses as `([], True)`. The repository's tests expect `_parse_html("")` to report an invalid page (test_scrapers.py:108-109), so the library's behaviour there may differ from this choice.
- Amazon.Resolve: `urljoin` is modelled for absolute http(s) links, for links with a scheme other than `https` (kept as they are) and for paths. Protocol-relative links (`//host/...`), links starting with `?` or `#`, links with an upper-case `HTTPS:` scheme or with `https:` not followed by `//`, and links with leading white space are placed under the site like paths. Dot segments (`/x/../dp/B0`) are not normalised, and an absolute https address is not re-assembled, so empty `?` or `#` parts stay.
- MainScript.MainLogic: the two scrapers are abstracted as the `search` parameter, giving each platform's outcome (records or raised) for a query and page count; it is not composed with the scraper classes.
- The `products is None` exit of both page loops (amazon_scraper.py:46-50, mercadolibre_scraper.py:39-41) is unreachable, since neither funnel returns `None`, and is not modelled. The failure the page loop models is an exception leaving the funnel call, such as an undecodable 200 from the MercadoLibre API.
- `debug.py` and the tests are not part of this model.

## Findings

| source | as written | input that shows it | evidently intended | confidence | as-written member | corrected member |
|---|---|---|---|---|---|---|
| mercadolibre_scraper.py:233-236 | a price with one dot loses the dot when at most two characters follow it, and keeps it otherwise | "150.000" (a Colombian price with a thousands separator) is read as 150.0, and "12.50" as 1250.0 | a dot followed by exactly three digits separates thousands and goes; a shorter tail is a decimal point and stays | high, not executed | MercadoLibre.NormalizePriceAsWritten, shown by MercadoLibre.PriceAsWrittenThousands, MercadoLibre.PriceAsWrittenCents, MercadoLibre.ThousandsMisread and MercadoLibre.ItemPriceThousands | MercadoLibre.NormalizePrice, proved by MercadoLibre.PriceThousands and MercadoLibre.PriceDecimal |
| mercadolibre_scraper.py:172 | the "no results" notice is spelt `bÃºsqueda`, the UTF-8 bytes of `ú` read back as Latin-1 | a page whose text is "No hay publicaciones que coincidan con tu búsqueda" passes as a valid results page | the notice with `ú`, so that such a page is rejected | medium, not executed | MercadoLibre.IsValidPageAsWritten, shown by MercadoLibre.NoResultsPageMissed and MercadoLibre.NoticePageParsed | MercadoLibre.IsValidPage, which MercadoLibre.NoResultsPageMissed proves rejects that page |

The scraper functions and methods follow the code as written: `PriceFrom` uses `NormalizePriceAsWritten` and `ParsePage` uses `IsValidPageAsWritten`, so `MercadoLibre.ItemPriceThousands` and `MercadoLibre.NoticePageParsed` show each discrepancy reaching the scraper's results. The corrected definitions stand beside them with the intended properties proved.
