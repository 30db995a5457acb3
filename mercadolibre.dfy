/** `MercadoLibreScraper`: each results page is asked of the search API first and, when that
    gives nothing, fetched as a listing page (through the cache) and parsed; the records of all
    pages are collected page after page and de-duplicated by id at the end. */
module MercadoLibre {
  import opened Wrappers
  import opened PyText
  import opened PyNum
  import opened PyValue
  import opened Products
  import opened Validation
  import opened Patterns
  import opened Html
  import opened Listing
  import opened Cache
  import opened Fetch
  import opened Seqs
  import opened Paging

  /** The listing pages of the Colombian site, whatever country the scraper was built for. */
  const ListingUrl: string := "https://listado.mercadolibre.com.co/"
  /** How many results one API page and one listing page hold. */
  const PageSize: int := 50
  /** The `source` of every record. */
  const SiteName: string := "MercadoLibre"

  // ---------------------------------------------------------------------------------------------
  // URLs and the API window

  /** The listing path of a query: spaces become `-`. */
  function QueryPath(query: string): string {
    ReplaceChar(query, ' ', '-')
  }

  /** `_get_url(query, page_num)`: the first page is the bare query path, page `n` adds
      `_Desde_` and the 1-based position of its first result, `(n - 1) * 50 + 1`. */
  function GetUrl(query: string, page: int): string {
    ListingUrl + QueryPath(query) + PageSuffix(page)
  }

  function PageSuffix(page: int): string {
    if page == 1 then "" else "_Desde_" + IntToString((page - 1) * PageSize + 1)
  }

  /** Different pages of one search have different addresses, so they never share a cache
      entry. */
  lemma GetUrlPagesDiffer(query: string, p1: int, p2: int)
    requires p1 != p2
    ensures GetUrl(query, p1) != GetUrl(query, p2)
  {
    PageSuffixDiffer(p1, p2);
    var base := ListingUrl + QueryPath(query);
    if GetUrl(query, p1) == GetUrl(query, p2) {
      SameSuffix(base, PageSuffix(p1), PageSuffix(p2));
    }
  }

  lemma PageSuffixDiffer(p1: int, p2: int)
    requires p1 != p2
    ensures PageSuffix(p1) != PageSuffix(p2)
  {
    var tag := "_Desde_";
    if p1 != 1 && p2 != 1 {
      var n1, n2 := (p1 - 1) * PageSize + 1, (p2 - 1) * PageSize + 1;
      if PageSuffix(p1) == PageSuffix(p2) {
        SameSuffix(tag, IntToString(n1), IntToString(n2));
        IntRoundTrip(n1);
        IntRoundTrip(n2);
      }
    }
  }

  lemma SameSuffix(base: string, x: string, y: string)
    requires base + x == base + y
    ensures x == y
  {
    assert x == (base + x)[|base|..];
    assert y == (base + y)[|base|..];
  }

  /** `offset = (page_num - 1) * 50`: where the API window of a page starts. */
  function ApiOffset(page: int): int {
    (page - 1) * PageSize
  }

  // ---------------------------------------------------------------------------------------------
  // The search API

  /** What `_fetch_with_api` makes of the API's reply: the decoded `results` of a 200, `None`
      for any other status or a request error; a 200 whose body is not JSON raises, and nothing
      in the scraper catches that. */
  function ApiData(reply: ApiReply): Outcome<Option<seq<ApiItem>>> {
    match reply
    case ApiRequestError => Returned(None)
    case ApiResponse(status, body) =>
      if status != 200 then Returned(None)
      else match body
        case Undecodable => Raised
        case Object(results) => Returned(Some(results))
  }

  /** Only a 200 with a decodable body gives results, and only a 200 with an undecodable body
      raises. */
  lemma ApiDataCases(reply: ApiReply)
    ensures ApiData(reply).Raised? <==> reply.ApiResponse? && reply.status == 200 && reply.body.Undecodable?
    ensures ApiData(reply).Returned? && ApiData(reply).value.Some? <==>
      reply.ApiResponse? && reply.status == 200 && reply.body.Object?
    ensures ApiData(reply).Returned? && ApiData(reply).value.Some? ==> ApiData(reply).value.value == reply.body.results
  {
  }

  /** One record of `_parse_api_data`: the item's fields as they are, not validated, with
      source "MercadoLibre" and no rating or review count. */
  function ApiRecord(item: ApiItem): Record {
    Assemble(item.id, item.title, item.permalink, Text(SiteName), item.currencyId, Null, Null, Some(item.price))
  }

  /** `_parse_api_data`: one record per result, in order. */
  function ApiProducts(results: seq<ApiItem>): seq<Record> {
    seq(|results|, i requires 0 <= i < |results| => ApiRecord(results[i]))
  }

  /** Every result becomes a record, in order, carrying the item's id, title, link, price and
      currency unchanged, the source "MercadoLibre" and `None` for rating and review count; no
      result is dropped, not even one without id or title. */
  lemma ApiProductsFields(results: seq<ApiItem>)
    ensures var ps := ApiProducts(results);
      |ps| == |results| && AllHaveId(ps) &&
      forall i :: 0 <= i < |ps| ==>
        && ps[i][Id] == results[i].id && ps[i][Title] == results[i].title
        && ps[i][Url] == results[i].permalink && ps[i][Price] == results[i].price
        && ps[i][Currency] == results[i].currencyId && ps[i][Source] == Text(SiteName)
        && ps[i][Rating] == Null && ps[i][ReviewCount] == Null
  {
  }

  // ---------------------------------------------------------------------------------------------
  // Page validity

  /** The "no results" notice as the scraper spells it: its "ú" is the UTF-8 encoding of that
      letter read back as Latin-1, "Ã" followed by "º". */
  const NoResultsNoticeAsWritten: string := "No hay publicaciones que coincidan con tu b\U{C3}\U{BA}squeda"

  /** The notice as the site shows it. */
  const NoResultsNotice: string := "No hay publicaciones que coincidan con tu b\U{FA}squeda"

  /** `_is_valid_page(tree)` as written: valid unless the body text holds the misspelt notice. */
  predicate IsValidPageAsWritten(d: Document) {
    !Contains(d.bodyText, NoResultsNoticeAsWritten)
  }

  /** The check as intended: valid unless the body text holds the notice. */
  predicate IsValidPage(d: Document) {
    !Contains(d.bodyText, NoResultsNotice)
  }

  /** The misspelt notice is longer than the real one, so a page saying only "no results" passes
      the check as written; the intended check rejects it. */
  lemma NoResultsPageMissed(d: Document)
    requires d.bodyText == NoResultsNotice
    ensures IsValidPageAsWritten(d) && !IsValidPage(d)
  {
    ContainsSelf(d.bodyText);
    assert |NoResultsNoticeAsWritten| > |d.bodyText|;
    NotContainsLonger(d.bodyText, NoResultsNoticeAsWritten);
  }

  // ---------------------------------------------------------------------------------------------
  // Prices

  /** The digits after the last dot, `t.split('.')[-1]`. */
  function LastPiece(t: string): string {
    var parts := SplitOn(t, '.');
    parts[|parts| - 1]
  }

  /** The price text as the scraper prepares it for `float()`: with more than one dot all dots
      go; with one dot followed by at most two characters the dot goes too. */
  function NormalizePriceAsWritten(t: string): string {
    if multiset(t)['.'] > 1 then RemoveChar(t, '.')
    else if '.' in t && |LastPiece(t)| <= 2 then RemoveChar(t, '.')
    else t
  }

  /** The preparation as intended: dots that separate groups of thousands go, as in
      "1.500.000" or "150.000"; a dot followed by fewer digits is a decimal point and stays. */
  function NormalizePrice(t: string): string {
    if multiset(t)['.'] > 1 then RemoveChar(t, '.')
    else if '.' in t && |LastPiece(t)| == 3 then RemoveChar(t, '.')
    else t
  }

  /** `w.f` for digit runs `w` and `f`: one dot, `f` after it, and `w + f` once the dot is gone. */
  lemma OneDot(w: string, f: string)
    requires AllDigits(w) && AllDigits(f)
    ensures var t := w + "." + f;
      multiset(t)['.'] == 1 && '.' in t && LastPiece(t) == f && RemoveChar(t, '.') == w + f
  {
    NoDotInDigits(w);
    NoDotInDigits(f);
    var dot := ".";
    OneDotCount(w, dot, f);
    SplitDecimal(w, f);
    DotRemoved(w, dot, f);
  }

  lemma OneDotCount(w: string, dot: string, f: string)
    requires '.' !in w && '.' !in f && dot == "."
    ensures multiset(w + dot + f)['.'] == 1 && '.' in w + dot + f
  {
    assert multiset(w + dot + f) == multiset(w) + multiset(dot) + multiset(f);
    assert (w + dot + f)[|w|] == '.';
  }

  lemma DotRemoved(w: string, dot: string, f: string)
    requires '.' !in w && '.' !in f && dot == "."
    ensures RemoveChar(w + dot + f, '.') == w + f
  {
    RemoveCharAppend(w + dot, f, '.');
    RemoveCharAppend(w, dot, '.');
    RemoveCharAbsent(w, '.');
    RemoveCharAbsent(f, '.');
    assert RemoveChar(dot, '.') == [];
    assert w + [] == w;
  }

  /** As written, a price with one thousands separator reads as a decimal fraction, a thousand
      times too small: "150.000" is 150.0. */
  lemma PriceAsWrittenThousands(w: string, g: string)
    requires AllDigits(w) && AllDigits(g) && |g| == 3
    ensures ParseFloat(NormalizePriceAsWritten(w + "." + g)) == Some(DecimalValue(w, g))
  {
    OneDot(w, g);
    ParseDecimal(w, g);
  }

  /** As written, a price with one or two decimals loses its decimal point: "12.50" is 1250. */
  lemma PriceAsWrittenCents(w: string, f: string)
    requires AllDigits(w) && AllDigits(f) && |f| <= 2 && w + f != []
    ensures AllDigits(w + f)
    ensures ParseFloat(NormalizePriceAsWritten(w + "." + f)) == Some(DigitsValue(w + f) as real)
  {
    OneDot(w, f);
    DigitsValueAppend(w, f);
    ParseDigits(w + f);
  }

  /** With the intended rule one thousands separator goes: `w.ggg` is `w * 1000 + ggg`. */
  lemma PriceThousands(w: string, g: string)
    requires AllDigits(w) && AllDigits(g) && |g| == 3
    ensures AllDigits(w + g) && DigitsValue(w + g) == DigitsValue(w) * 1000 + DigitsValue(g)
    ensures ParseFloat(NormalizePrice(w + "." + g)) == Some(DigitsValue(w + g) as real)
  {
    OneDot(w, g);
    DigitsValueAppend(w, g);
    assert Pow10(|g|) == 1000 by {
      assert Pow10(1) == 10 && Pow10(2) == 100;
    }
    ParseDigits(w + g);
  }

  /** With the intended rule a decimal point stays: `w.f` with one or two decimals is that
      decimal. */
  lemma PriceDecimal(w: string, f: string)
    requires AllDigits(w) && AllDigits(f) && |f| <= 2 && w + f != []
    ensures ParseFloat(NormalizePrice(w + "." + f)) == Some(DecimalValue(w, f))
  {
    OneDot(w, f);
    ParseDecimal(w, f);
  }

  /** With two dots or more both rules drop every dot, so "1.500.000" reads as 1500000; a price
      without a dot is read as it is. */
  lemma PriceGroups(t: string)
    ensures multiset(t)['.'] > 1 ==>
      NormalizePrice(t) == RemoveChar(t, '.') && NormalizePriceAsWritten(t) == RemoveChar(t, '.')
    ensures '.' !in t ==> NormalizePrice(t) == t && NormalizePriceAsWritten(t) == t
  {
  }

  /** The two rules disagree on every price with one thousands separator, "150.000" among
      them: as written it is read a thousand times too small. */
  lemma ThousandsMisread(w: string, g: string)
    requires AllDigits(w) && AllDigits(g) && |g| == 3 && DigitsValue(w + g) > 0
    ensures ParseFloat(NormalizePriceAsWritten(w + "." + g)) != ParseFloat(NormalizePrice(w + "." + g))
  {
    PriceAsWrittenThousands(w, g);
    PriceThousands(w, g);
    ThousandsScale(DigitsValue(w), DigitsValue(g), Pow10(|g|));
  }

  /** `w + g / 1000` and `w * 1000 + g` agree only when both are zero. */
  lemma ThousandsScale(w: nat, g: nat, p: nat)
    requires p == 1000 && w * 1000 + g > 0
    ensures w as real + g as real / p as real != (w * 1000 + g) as real
  {
    assert (w * 1000 + g) as real == w as real * 1000.0 + g as real;
  }

  // ---------------------------------------------------------------------------------------------
  // Fields of one listing item

  /** A title is read from an image's `title` attribute (stripped) or from an element's text. */
  datatype TitleSource = ImgTitle(selector: string) | NodeText(selector: string)

  const TitleSources: seq<TitleSource> := [
    ImgTitle("img[title]"),
    NodeText("h2.ui-search-item__title"),
    NodeText(".ui-search-item__title"),
    NodeText("h2 a"),
    NodeText("[data-testid*='title']")]
  const UrlSelectors: seq<string> :=
    ["a.ui-search-link", "a[href*='MLA']", "a[href*='MCO']", "h2 a", "a.poly-component__title"]
  const PriceSelectors: seq<string> := [
    "span.andes-money-amount__fraction",
    ".andes-money-amount__fraction",
    ".price-tag-fraction",
    "[data-testid*='price']",
    ".poly-price__current .poly-price__fraction"]
  const CurrencySelectors: seq<string> := [
    "span.andes-money-amount__currency-symbol",
    ".andes-money-amount__currency-symbol",
    ".price-tag-symbol",
    ".poly-price__symbol"]

  /** One title source: a non-empty `title` attribute ends the search with its stripped text,
      even when that is blank; an element's stripped text ends it only when non-empty. */
  function TitleFrom(item: Node, source: TitleSource): Option<string> {
    match source
    case ImgTitle(s) =>
      var t := AttrOf(item, s, "title");
      if t.Some? then Some(Strip(t.value)) else None
    case NodeText(s) => StrippedTextOf(item, s)
  }

  /** One price selector: a non-empty text, its dots handled as the scraper handles them, that
      `float()` accepts. A text it rejects moves on to the next selector. */
  function PriceFrom(item: Node, s: string): Option<real> {
    match StrippedTextOf(item, s)
    case None => None
    case Some(t) => ParseFloat(NormalizePriceAsWritten(t))
  }

  function TitleRule(item: Node): TitleSource -> Option<string> { source => TitleFrom(item, source) }
  function UrlRule(item: Node): string -> Option<string> { s => AttrOf(item, s, "href") }
  function PriceRule(item: Node): string -> Option<real> { s => PriceFrom(item, s) }
  function CurrencyRule(item: Node): string -> Option<string> { s => StrippedTextOf(item, s) }

  /** The first non-empty currency symbol, `"$"` when there is none. */
  function CurrencyOf(item: Node): string {
    match FirstSome(CurrencySelectors, CurrencyRule(item))
    case Some(c) => c
    case None => "$"
  }

  /** The id the address fallback takes from one piece of the address: a piece longer than five
      characters that does not start with "http", up to its first `-`. */
  function SegmentId(part: string): (r: Option<string>)
    ensures r.Some? <==> |part| > 5 && !StartsWith(part, "http")
    ensures r.Some? ==> '-' !in r.value && StartsWith(part, r.value)
    ensures r.Some? ==> |r.value| == |part| || part[|r.value|] == '-'
  {
    if |part| > 5 && !StartsWith(part, "http") then Some(part[..IndexOf(part, '-')]) else None
  }

  /** The product id of an item: none without an address; else the leftmost `MLA` or `MCO`
      followed by digits in the address, or failing that the fallback's id. */
  function ProductId(url: Option<string>): Option<string> {
    if url.None? then None
    else match SiteId(url.value)
      case Some(id) => Some(id)
      case None => FallbackId(url.value)
  }

  /** The fallback: the id of the first piece of `url.split('/')` it accepts. */
  function FallbackId(url: string): Option<string> {
    FirstSome(SplitOn(url, '/'), SegmentId)
  }

  /** The fallback gives nothing exactly when it accepts no piece, and otherwise the id of a
      piece it accepts: one longer than five characters not starting with "http". */
  lemma FallbackIdCases(u: string)
    ensures var parts := SplitOn(u, '/');
      FallbackId(u).None? <==> forall k :: 0 <= k < |parts| ==> SegmentId(parts[k]).None?
    ensures var parts := SplitOn(u, '/');
      FallbackId(u).Some? ==>
        exists k :: 0 <= k < |parts| && |parts[k]| > 5 && !StartsWith(parts[k], "http") &&
          FallbackId(u) == SegmentId(parts[k])
  {
    SegmentChain(SplitOn(u, '/'));
  }

  lemma SegmentChain(parts: seq<string>)
    ensures FirstSome(parts, SegmentId).None? <==> forall k :: 0 <= k < |parts| ==> SegmentId(parts[k]).None?
    ensures FirstSome(parts, SegmentId).Some? ==>
      exists k :: 0 <= k < |parts| && SegmentId(parts[k]) == FirstSome(parts, SegmentId)
  {
    var f: string -> Option<string> := SegmentId;
    FirstSomeSpec(parts, f);
    if FirstSome(parts, f).None? {
      forall k | 0 <= k < |parts| ensures SegmentId(parts[k]).None? {
        assert f(parts[k]).None?;
      }
    } else {
      var k :| 0 <= k < |parts| && f(parts[k]) == FirstSome(parts, f);
      assert SegmentId(parts[k]) == FirstSome(parts, f);
    }
  }

  /** `scheme://host/path`. */
  function Address(scheme: string, host: string, path: string): string {
    scheme + "//" + host + "/" + path
  }

  /** On an absolute address without a site id the fallback stops at the host: every product
      under `https://<host>/...` gets the host name (up to its first `-`) as its id. */
  lemma HostAsId(scheme: string, host: string, path: string)
    requires StartsWith(scheme, "http") && '/' !in scheme
    requires |host| > 5 && !StartsWith(host, "http") && '/' !in host
    ensures FallbackId(Address(scheme, host, path)) == Some(host[..IndexOf(host, '-')])
    ensures SiteId(Address(scheme, host, path)).None? ==>
      ProductId(Some(Address(scheme, host, path))) == Some(host[..IndexOf(host, '-')])
  {
    var parts := SplitOn(Address(scheme, host, path), '/');
    SplitHost(scheme, host, path);
    HostPiece(parts, host);
  }

  /** Pieces that start with a scheme and an empty piece, then a host the fallback accepts. */
  lemma HostPiece(parts: seq<string>, host: string)
    requires |parts| >= 3 && StartsWith(parts[0], "http") && parts[1] == [] && parts[2] == host
    requires |host| > 5 && !StartsWith(host, "http")
    ensures FirstSome(parts, SegmentId) == Some(host[..IndexOf(host, '-')])
  {
    assert SegmentId(parts[0]).None? && SegmentId(parts[1]).None?;
    FirstSomeAt(parts, SegmentId, 2);
  }


  /** `scheme://host/path` splits into the scheme, an empty piece, the host and the path's pieces. */
  lemma SplitHost(scheme: string, host: string, path: string)
    requires '/' !in scheme && '/' !in host
    ensures var parts := SplitOn(Address(scheme, host, path), '/');
      |parts| >= 3 && parts[0] == scheme && parts[1] == [] && parts[2] == host
  {
    var rest := host + ['/'] + path;
    var mid := [] + ['/'] + rest;
    AddressShape(scheme, host, path);
    SplitAfter(host, path, '/');
    SplitAfter([], rest, '/');
    SplitAfter(scheme, mid, '/');
    var sr, sm := SplitOn(rest, '/'), SplitOn(mid, '/');
    assert sr[0] == host;
    assert sm[0] == [] && sm[1] == host;
  }

  lemma AddressShape(scheme: string, host: string, path: string)
    ensures Address(scheme, host, path) == scheme + ['/'] + ([] + ['/'] + (host + ['/'] + path))
  {
  }

  /** The address `/MLA123456789` gives the id `MLA123456789`. */
  lemma ProductIdOfPath(site: string, digits: string)
    requires site == "MLA" || site == "MCO"
    requires digits != [] && AllDigits(digits)
    ensures ProductId(Some("/" + site + digits)) == Some(site + digits)
  {
    SiteIdOfPath(site, digits);
  }

  /** The raw dictionary of a listing item: no rating or review count. */
  function RawProduct(id: Option<string>, title: string, url: Option<string>, price: Option<real>,
                      currency: string): Record {
    Assemble(TextOrNone(id), Text(title), TextOrNone(url), Text(SiteName), Text(currency),
             Null, Null, Some(FloatOrNone(price)))
  }

  /** What `_extract_product_info` makes of the fields its selector loops found: nothing
      without a (non-empty) title; otherwise the validated dictionary. */
  function ProductOf(id: Option<string>, title: Option<string>, url: Option<string>, price: Option<real>,
                     currency: string): Option<Record>
  {
    if title.None? || title.value == [] then None
    else Validate(RawProduct(id, title.value, url, price, currency))
  }

  /** `_extract_product_info(item)`: the title, link, price and currency loops, and the id
      taken from the link. */
  function ProductInfo(item: Node): Option<Record> {
    var url := FirstSome(UrlSelectors, UrlRule(item));
    ProductOf(ProductId(url), FirstSome(TitleSources, TitleRule(item)), url,
              FirstSome(PriceSelectors, PriceRule(item)), CurrencyOf(item))
  }

  /** A record is made exactly when there is a title and an id, neither blank once stripped. */
  lemma ProductOfPresence(id: Option<string>, title: Option<string>, url: Option<string>, price: Option<real>,
                          currency: string)
    ensures ProductOf(id, title, url, price, currency).Some? <==>
      title.Some? && Strip(title.value) != [] && id.Some? && Strip(id.value) != []
  {
    if title.Some? && title.value != [] {
      var raw := RawProduct(id, title.value, url, price, currency);
      TextTitlePresence(raw, title.value);
      if id.Some? {
        TextIdPresence(raw, id.value);
      }
    } else if title.Some? {
      StripEmptyIffAllSpace(title.value);
    }
  }

  /** A record carries the stripped id, the stripped title cut to 200 characters, source
      "MercadoLibre", the currency found, no rating or review count, the link stripped when it
      is an http(s) address and `None` otherwise (a relative link is dropped), and the price when
      it is not negative (`None` when none was read, no price at all when it is negative). */
  lemma ProductOfFields(id: Option<string>, title: Option<string>, url: Option<string>, price: Option<real>,
                        currency: string)
    requires ProductOf(id, title, url, price, currency).Some?
    ensures id.Some? && title.Some?
    ensures var p := ProductOf(id, title, url, price, currency).value;
      && p[Id] == Text(Strip(id.value))
      && p[Title] == Text(Take(Strip(title.value), TitleLimit))
      && p[Source] == Text(SiteName) && p[Currency] == Text(currency)
      && p[Rating] == Null && p[ReviewCount] == Null
      && p[Url] == (if url.Some? && IsHttpUrl(Strip(url.value)) then Text(Strip(url.value)) else Null)
      && (price.None? ==> Price in p && Get(p, Price) == Null)
      && (price.Some? && price.value >= 0.0 ==> Price in p && Get(p, Price) == Float(price.value))
      && (price.Some? && price.value < 0.0 ==> Price !in p)
  {
    ProductOfPresence(id, title, url, price, currency);
    var raw := RawProduct(id, title.value, url, price, currency);
    ValidateFields(raw);
    CleanUrlRange(raw[Url]);
    CleanReadPrice(price);
  }

  /** Every record is clean and carries source "MercadoLibre". */
  lemma ProductOfClean(id: Option<string>, title: Option<string>, url: Option<string>, price: Option<real>,
                       currency: string)
    requires ProductOf(id, title, url, price, currency).Some?
    ensures var p := ProductOf(id, title, url, price, currency).value;
      Clean(p) && p[Source] == Text(SiteName)
  {
    var raw := RawProduct(id, title.value, url, price, currency);
    ValidateClean(raw);
    ValidateFields(raw);
  }

  /** A non-empty `title` attribute on the item's image decides the title, even when it is
      blank: then the item yields nothing, whatever its other title elements say. */
  lemma ImgTitleFirst(item: Node)
    requires AttrOf(item, TitleSources[0].selector, "title").Some?
    ensures FirstSome(TitleSources, TitleRule(item)) == Some(Strip(AttrOf(item, TitleSources[0].selector, "title").value))
    ensures Strip(AttrOf(item, TitleSources[0].selector, "title").value) == [] ==> ProductInfo(item).None?
  {
    FirstSomeAt(TitleSources, TitleRule(item), 0);
  }

  /** An item whose title sources all give nothing, or without a link, yields nothing. */
  lemma ProductInfoPresence(item: Node)
    ensures (forall i :: 0 <= i < |TitleSources| ==> TitleFrom(item, TitleSources[i]).None?) ==>
      ProductInfo(item).None?
    ensures (forall i :: 0 <= i < |UrlSelectors| ==> AttrOf(item, UrlSelectors[i], "href").None?) ==>
      ProductInfo(item).None?
  {
    var url := FirstSome(UrlSelectors, UrlRule(item));
    FirstSomeSpec(TitleSources, TitleRule(item));
    FirstSomeSpec(UrlSelectors, UrlRule(item));
    if forall i :: 0 <= i < |TitleSources| ==> TitleFrom(item, TitleSources[i]).None? {
      assert forall i :: 0 <= i < |TitleSources| ==> TitleRule(item)(TitleSources[i]).None?;
    }
    if forall i :: 0 <= i < |UrlSelectors| ==> AttrOf(item, UrlSelectors[i], "href").None? {
      assert forall i :: 0 <= i < |UrlSelectors| ==> UrlRule(item)(UrlSelectors[i]).None?;
      assert ProductId(url).None?;
    }
  }

  /** Every record an item yields is clean and carries source "MercadoLibre". */
  lemma ProductInfoYieldsClean()
    ensures YieldsClean(ProductInfo, SiteName)
  {
    forall n | ProductInfo(n).Some? ensures Clean(ProductInfo(n).value) && ProductInfo(n).value[Source] == Text(SiteName) {
      var url := FirstSome(UrlSelectors, UrlRule(n));
      ProductOfClean(ProductId(url), FirstSome(TitleSources, TitleRule(n)), url,
                     FirstSome(PriceSelectors, PriceRule(n)), CurrencyOf(n));
    }
  }

  // ---------------------------------------------------------------------------------------------
  // Parsing a listing page

  const ContainerSelectors: seq<string> :=
    ["li.ui-search-layout__item", "div.ui-search-result__wrapper", ".poly-card", ".ui-search-results__item"]

  /** `_parse_html`: an invalid page, or one where no container selector matches, gives
      `([], False)`; otherwise the records of the items of the first selector that matches,
      and `True`. */
  function ParsePage(d: Document): (seq<Record>, bool) {
    if !IsValidPageAsWritten(d) then ([], false)
    else
      var items := FirstMatches(d, ContainerSelectors);
      if items == [] then ([], false) else (Collect(items, ProductInfo), true)
  }

  /** A page counts as parsed exactly when it is valid and some container selector matches;
      a page that does not gives no records. */
  lemma ParsePageCases(d: Document)
    ensures ParsePage(d).1 <==>
      IsValidPageAsWritten(d) && exists i :: 0 <= i < |ContainerSelectors| && DocAll(d, ContainerSelectors[i]) != []
    ensures !ParsePage(d).1 ==> ParsePage(d).0 == []
    ensures ParsePage(d).1 ==> |ParsePage(d).0| <= |FirstMatches(d, ContainerSelectors)|
  {
    FirstMatchesEmpty(d, ContainerSelectors);
  }

  lemma ParsePageHasIds(d: Document)
    ensures AllHaveId(ParsePage(d).0)
  {
    ProductInfoYieldsClean();
    CollectClean(FirstMatches(d, ContainerSelectors), ProductInfo, SiteName);
  }

  /** A page that tells the shopper, correctly spelt, that nothing matched still counts as a
      results page, and its items are parsed, as long as a container selector matches. */
  lemma NoticePageParsed(d: Document)
    requires d.bodyText == NoResultsNotice
    requires DocAll(d, ContainerSelectors[0]) != []
    ensures ParsePage(d).1
  {
    NoResultsPageMissed(d);
    ParsePageCases(d);
  }

  /** An item whose first price selector shows one thousands separator, "150.000" say, is read
      as the decimal 150.0. */
  lemma ItemPriceThousands(item: Node, w: string, g: string)
    requires AllDigits(w) && AllDigits(g) && |g| == 3
    requires StrippedTextOf(item, PriceSelectors[0]) == Some(w + "." + g)
    ensures FirstSome(PriceSelectors, PriceRule(item)) == Some(DecimalValue(w, g))
  {
    PriceAsWrittenThousands(w, g);
    assert PriceRule(item)(PriceSelectors[0]) == Some(DecimalValue(w, g));
  }

  // ---------------------------------------------------------------------------------------------
  // The strategy funnel and the page loop

  /** The two strategies, in the order the funnel tries them. */
  datatype Strategy = Api | DesktopHttp

  /** What a fetched page contributes: its records when the page is there (non-empty), parsed
      and has records; nothing otherwise. */
  function Usable(html: Option<string>, parse: string -> Document): (r: Option<seq<Record>>)
    ensures r.Some? ==> r.value != []
  {
    if html.None? || html.value == [] then None
    else
      var (products, valid) := ParsePage(parse(html.value));
      if valid && products != [] then Some(products) else None
  }

  lemma UsableHasIds(html: Option<string>, parse: string -> Document)
    ensures Usable(html, parse).Some? ==> AllHaveId(Usable(html, parse).value)
  {
    if html.Some? && html.value != [] {
      ParsePageHasIds(parse(html.value));
    }
  }

  /** One run of the funnel: its records or the exception it raised, the strategies tried in
      order, and the cache after. */
  datatype FunnelRun = FunnelRun(outcome: Outcome<seq<Record>>, tried: seq<Strategy>, files: map<string, CacheFile>)

  /** The API's answer for a page. */
  function ApiReplyFor(net: Network, query: string, page: int): ApiReply {
    net.api(query, ApiOffset(page), PageSize)
  }

  /** `_execute_strategy_funnel`: the API first, whose records win when there are any; else the
      listing page through the cache (3 retries), whose records win when it is usable; else `[]`.
      A 200 reply the API cannot decode raises out of the funnel. */
  function Funnel(files: map<string, CacheFile>, net: Network, parse: string -> Document, maxAge: int,
                  query: string, page: int): FunnelRun
  {
    match ApiData(ApiReplyFor(net, query, page))
    case Raised => FunnelRun(Raised, [Api], files)
    case Returned(data) =>
      if data.Some? && ApiProducts(data.value) != [] then FunnelRun(Returned(ApiProducts(data.value)), [Api], files)
      else
        var url := GetUrl(query, page);
        var h := CachedFetch(files, url, net.now, maxAge, HttpOp(net, url), 3);
        var found := Usable(h.html, parse);
        FunnelRun(Returned(if found.Some? then found.value else []), [Api, DesktopHttp], h.files)
  }

  /** The API is always asked first. When it has results they are the page's records, unvalidated,
      and the listing page is neither fetched nor cached; when its reply cannot be decoded the
      funnel raises, likewise with the cache untouched; otherwise the listing page is fetched
      through the cache, and its usable records, or `[]` when it has none, are the result. */
  lemma FunnelOrder(files: map<string, CacheFile>, net: Network, parse: string -> Document, maxAge: int,
                    query: string, page: int)
    ensures var r := Funnel(files, net, parse, maxAge, query, page);
      r.tried == [Api] || r.tried == [Api, DesktopHttp]
    ensures var r, reply := Funnel(files, net, parse, maxAge, query, page), ApiReplyFor(net, query, page);
      r.outcome.Raised? <==> reply.ApiResponse? && reply.status == 200 && reply.body.Undecodable?
    ensures var r, reply := Funnel(files, net, parse, maxAge, query, page), ApiReplyFor(net, query, page);
      reply.ApiResponse? && reply.status == 200 && reply.body.Object? && reply.body.results != [] ==>
        r == FunnelRun(Returned(ApiProducts(reply.body.results)), [Api], files)
    ensures var r := Funnel(files, net, parse, maxAge, query, page);
      r.tried == [Api] ==> r.files == files
    ensures var r, reply := Funnel(files, net, parse, maxAge, query, page), ApiReplyFor(net, query, page);
      var url := GetUrl(query, page);
      var h := CachedFetch(files, url, net.now, maxAge, HttpOp(net, url), 3);
      var found := Usable(h.html, parse);
      !(reply.ApiResponse? && reply.status == 200 && reply.body.Undecodable?) &&
      !(reply.ApiResponse? && reply.status == 200 && reply.body.Object? && reply.body.results != []) ==>
        r == FunnelRun(Returned(if found.Some? then found.value else []), [Api, DesktopHttp], h.files)
  {
    ApiDataCases(ApiReplyFor(net, query, page));
  }

  /** Every record of a funnel run that does not raise carries an id. */
  lemma FunnelHasIds(files: map<string, CacheFile>, net: Network, parse: string -> Document, maxAge: int,
                     query: string, page: int)
    ensures var r := Funnel(files, net, parse, maxAge, query, page);
      r.outcome.Returned? ==> AllHaveId(r.outcome.value)
  {
    var data := ApiData(ApiReplyFor(net, query, page));
    if data.Returned? && data.value.Some? {
      ApiProductsFields(data.value.value);
    }
    var url := GetUrl(query, page);
    UsableHasIds(CachedFetch(files, url, net.now, maxAge, HttpOp(net, url), 3).html, parse);
  }

  /** The funnel as a step of the shared page loop: an exception ends the search. */
  function FunnelStep(net: Network, parse: string -> Document, maxAge: int, query: string)
    : (map<string, CacheFile>, int) -> Step<map<string, CacheFile>>
  {
    (files, page) =>
      var f := Funnel(files, net, parse, maxAge, query, page);
      if f.outcome.Raised? then Failed(f.files) else Found(f.outcome.value, f.files)
  }

  /** The step is the funnel run, an exception becoming a failed step. */
  lemma StepOfFunnel(net: Network, parse: string -> Document, maxAge: int, query: string,
                     files: map<string, CacheFile>, page: int, run: FunnelRun)
    requires run == Funnel(files, net, parse, maxAge, query, page)
    ensures FunnelStep(net, parse, maxAge, query)(files, page) ==
      if run.outcome.Raised? then Failed(run.files) else Found(run.outcome.value, run.files)
  {
  }

  /** The API never answers a 200 with a body it cannot decode. */
  ghost predicate ApiAlwaysDecodes(net: Network) {
    forall q, o, l :: !(net.api(q, o, l).ApiResponse? && net.api(q, o, l).status == 200 &&
                        net.api(q, o, l).body.Undecodable?)
  }

  /** The funnel step finds only records with an id, and never raises while the API decodes. */
  lemma FunnelStepProperties(net: Network, parse: string -> Document, maxAge: int, query: string)
    ensures FoundHaveIds(FunnelStep(net, parse, maxAge, query))
    ensures ApiAlwaysDecodes(net) ==> NeverFails(FunnelStep(net, parse, maxAge, query))
  {
    forall files, page ensures FunnelStep(net, parse, maxAge, query)(files, page).Found? ==>
      AllHaveId(FunnelStep(net, parse, maxAge, query)(files, page).products) {
      FunnelHasIds(files, net, parse, maxAge, query, page);
    }
    if ApiAlwaysDecodes(net) {
      forall files, page ensures FunnelStep(net, parse, maxAge, query)(files, page).Found? {
        FunnelOrder(files, net, parse, maxAge, query, page);
      }
    }
  }

  /** What `search_products` gives: the records of all visited pages, one per id, the last one
      seen for each; or the exception a funnel raised, which leaves the search. */
  function Search(files: map<string, CacheFile>, net: Network, parse: string -> Document, maxAge: int,
                  query: string, maxPages: int): Outcome<seq<Record>>
  {
    var run := Pages(FunnelStep(net, parse, maxAge, query), files, 1, maxPages);
    if run.raised then Raised
    else
      FunnelStepProperties(net, parse, maxAge, query);
      PagesHaveIds(FunnelStep(net, parse, maxAge, query), files, 1, maxPages);
      Returned(DeduplicateById(run.products))
  }

  /** The search raises exactly when the page loop did, and otherwise de-duplicates what it
      collected. */
  lemma SearchOutcome(files: map<string, CacheFile>, net: Network, parse: string -> Document, maxAge: int,
                      query: string, maxPages: int)
    ensures var run := Pages(FunnelStep(net, parse, maxAge, query), files, 1, maxPages);
      AllHaveId(run.products) &&
      Search(files, net, parse, maxAge, query, maxPages) == if run.raised then Raised else Returned(DeduplicateById(run.products))
  {
    FunnelStepProperties(net, parse, maxAge, query);
    PagesHaveIds(FunnelStep(net, parse, maxAge, query), files, 1, maxPages);
  }

  /** A search that returns gives one record per distinct id found on the visited pages. */
  lemma SearchProperties(files: map<string, CacheFile>, net: Network, parse: string -> Document, maxAge: int,
                         query: string, maxPages: int)
    ensures var r := Search(files, net, parse, maxAge, query, maxPages);
      r.Returned? ==> AllHaveId(r.value) && forall i, j :: 0 <= i < j < |r.value| ==> KeyOf(r.value[i][Id]) != KeyOf(r.value[j][Id])
    ensures var found := Pages(FunnelStep(net, parse, maxAge, query), files, 1, maxPages).products;
      var r := Search(files, net, parse, maxAge, query, maxPages);
      r.Returned? ==> AllHaveId(found) && forall j :: 0 <= j < |found| ==> IdKeys(found)[j] in IdKeys(r.value)
  {
    FunnelStepProperties(net, parse, maxAge, query);
    var found := Pages(FunnelStep(net, parse, maxAge, query), files, 1, maxPages).products;
    PagesHaveIds(FunnelStep(net, parse, maxAge, query), files, 1, maxPages);
    DeduplicateByIdProperties(found);
  }

  /** While the API decodes, the search returns, having visited every page from 1 to `maxPages`
      unless the first has no records, in which case only that one. */
  lemma SearchPagesVisited(files: map<string, CacheFile>, net: Network, parse: string -> Document, maxAge: int,
                           query: string, maxPages: int)
    requires ApiAlwaysDecodes(net)
    ensures Search(files, net, parse, maxAge, query, maxPages).Returned?
    ensures var r := Pages(FunnelStep(net, parse, maxAge, query), files, 1, maxPages);
      r.visited == if maxPages < 1 then 0
                   else if Funnel(files, net, parse, maxAge, query, 1).outcome.value == [] then 1
                   else maxPages
  {
    FunnelStepProperties(net, parse, maxAge, query);
    PagesVisited(FunnelStep(net, parse, maxAge, query), files, maxPages);
  }

  /** A first page the API answers with an undecodable 200 makes the whole search raise. */
  lemma SearchRaisesOnUndecodable(files: map<string, CacheFile>, net: Network, parse: string -> Document,
                                  maxAge: int, query: string, maxPages: int)
    requires maxPages >= 1
    requires net.api(query, 0, PageSize) == ApiResponse(200, Undecodable)
    ensures Search(files, net, parse, maxAge, query, maxPages) == Raised
  {
    assert ApiReplyFor(net, query, 1) == ApiResponse(200, Undecodable);
  }

  class MercadoLibreScraper {
    /** `f"https://www.mercadolibre.com.{country_code}"`; no request is made under it. */
    const baseUrl: string
    /** `FileCache()`. */
    const cache: FileCache
    /** `HTMLParser`: what the parsing library makes of a page. */
    const parse: string -> Document

    constructor (countryCode: string, parse: string -> Document, stored: map<string, CacheFile>)
      ensures baseUrl == "https://www.mercadolibre.com." + countryCode
      ensures this.parse == parse && fresh(cache)
      ensures cache.files == stored && cache.maxAge == DefaultMaxAgeHours * HourMicros
    {
      baseUrl := "https://www.mercadolibre.com." + countryCode;
      this.parse := parse;
      cache := new FileCache(DefaultMaxAgeHours, stored);
    }

    /** `_fetch_with_api`: one request for the page's window of 50 results, no cache and no
        retry. */
    method FetchWithApi(net: Network, query: string, page: int) returns (data: Outcome<Option<seq<ApiItem>>>)
      ensures data == ApiData(ApiReplyFor(net, query, page))
    {
      var offset := (page - 1) * PageSize;
      var reply := net.api(query, offset, PageSize);
      if reply.ApiRequestError? {
        return Returned(None);
      }
      if reply.status != 200 {
        return Returned(None);
      }
      if reply.body.Undecodable? {
        return Raised;
      }
      data := Returned(Some(reply.body.results));
    }

    /** `_fetch_with_html`: the listing page through the cache, else three retries over HTTP. */
    method FetchWithHtml(net: Network, query: string, page: int) returns (html: Option<string>)
      modifies cache
      ensures var url := GetUrl(query, page);
        Fetched(html, cache.files) == CachedFetch(old(cache.files), url, net.now, cache.maxAge, HttpOp(net, url), 3)
    {
      var url := GetUrl(query, page);
      html := CachedFetchFrom(cache, url, net, HttpOp(net, url), 3);
    }

    /** `_parse_api_data`: one record per result. */
    method ParseApiData(results: seq<ApiItem>) returns (products: seq<Record>)
      ensures products == ApiProducts(results)
    {
      products := [];
      var i := 0;
      while i < |results|
        invariant 0 <= i <= |results|
        invariant products == ApiProducts(results[..i])
      {
        products := products + [ApiRecord(results[i])];
        PrefixStep(results, i);
        i := i + 1;
      }
      PrefixAll(results);
    }

    /** `_extract_product_info`: the selector loops, each stopping at its first success, and
        the id taken from the link. */
    method ExtractProductInfo(item: Node) returns (r: Option<Record>)
      ensures r == ProductInfo(item)
    {
      var title := TryInOrder(TitleSources, TitleRule(item));
      if title.None? || title.value == [] {
        return None;
      }
      var url := TryInOrder(UrlSelectors, UrlRule(item));
      var price := TryInOrder(PriceSelectors, PriceRule(item));
      var id: Option<string> := None;
      if url.Some? {
        id := SiteId(url.value);
        if id.None? {
          id := TryInOrder(SplitOn(url.value, '/'), SegmentId);
        }
      }
      var symbol := TryInOrder(CurrencySelectors, CurrencyRule(item));
      var currency := if symbol.Some? then symbol.value else "$";
      r := Validate(RawProduct(id, title.value, url, price, currency));
    }

    /** `_parse_html`: validity, then the containers, then one record per item that yields one. */
    method ParseHtml(html: string) returns (products: seq<Record>, valid: bool)
      ensures (products, valid) == ParsePage(parse(html))
    {
      var tree := parse(html);
      if !IsValidPageAsWritten(tree) {
        return [], false;
      }
      var container := FirstMatches(tree, ContainerSelectors);
      if container == [] {
        return [], false;
      }
      products := ExtractAll(container);
      valid := true;
    }

    /** The item loop of `_parse_html`: each item's record, when it yields one, in item order. */
    method ExtractAll(items: seq<Node>) returns (products: seq<Record>)
      ensures products == Collect(items, ProductInfo)
    {
      products := [];
      var i := 0;
      while i < |items|
        invariant 0 <= i <= |items|
        invariant products == Collect(items[..i], ProductInfo)
      {
        var product := ExtractProductInfo(items[i]);
        CollectStep(items, ProductInfo, i, product);
        products := products + if product.Some? then [product.value] else [];
        i := i + 1;
      }
      PrefixAll(items);
    }

    /** The listing page, parsed: its records when it is usable. */
    method UsablePage(html: Option<string>) returns (r: Option<seq<Record>>)
      ensures r == Usable(html, parse)
    {
      if html.None? || html.value == [] {
        return None;
      }
      var products, valid := ParseHtml(html.value);
      r := if valid && products != [] then Some(products) else None;
    }

    /** `_execute_strategy_funnel`. */
    method ExecuteStrategyFunnel(net: Network, query: string, page: int)
      returns (outcome: Outcome<seq<Record>>, tried: seq<Strategy>)
      modifies cache
      ensures FunnelRun(outcome, tried, cache.files) == Funnel(old(cache.files), net, parse, cache.maxAge, query, page)
    {
      tried := [Api];
      var data := FetchWithApi(net, query, page);
      if data.Raised? {
        return Raised, tried;
      }
      if data.value.Some? {
        var products := ParseApiData(data.value.value);
        if products != [] {
          return Returned(products), tried;
        }
      }
      tried := tried + [DesktopHttp];
      var found := HtmlStrategy(net, query, page);
      outcome := Returned(if found.Some? then found.value else []);
    }

    /** The listing-page strategy: its page fetched through the cache, and what that page
        contributes. */
    method HtmlStrategy(net: Network, query: string, page: int) returns (found: Option<seq<Record>>)
      modifies cache
      ensures var url := GetUrl(query, page);
        var h := CachedFetch(old(cache.files), url, net.now, cache.maxAge, HttpOp(net, url), 3);
        found == Usable(h.html, parse) && cache.files == h.files
    {
      var html := FetchWithHtml(net, query, page);
      found := UsablePage(html);
    }

    /** `search_products(query, max_pages)`: an exception a funnel raises leaves the search. */
    method SearchProducts(net: Network, query: string, maxPages: int) returns (result: Outcome<seq<Record>>)
      modifies cache
      ensures var run := Pages(FunnelStep(net, parse, cache.maxAge, query), old(cache.files), 1, maxPages);
        result == Search(old(cache.files), net, parse, cache.maxAge, query, maxPages) && cache.files == run.state
    {
      ghost var step := FunnelStep(net, parse, cache.maxAge, query);
      ghost var start := cache.files;
      ghost var total := Pages(step, start, 1, maxPages);
      ghost var rest := total;
      SearchOutcome(start, net, parse, cache.maxAge, query, maxPages);
      var all: seq<Record> := [];
      var page := 1;
      var stop := false;
      while page <= maxPages && !stop
        invariant page >= 1
        invariant !stop ==> rest == Pages(step, cache.files, page, maxPages)
        invariant stop ==> rest == SearchRun([], 1, false, cache.files)
        invariant all + rest.products == total.products && rest.state == total.state && rest.raised == total.raised
        decreases maxPages - page + 1, if stop then 0 else 1
      {
        ghost var before := cache.files;
        var outcome, tried := ExecuteStrategyFunnel(net, query, page);
        StepOfFunnel(net, parse, cache.maxAge, query, before, page, FunnelRun(outcome, tried, cache.files));
        if outcome.Raised? {
          PagesFailed(step, before, page, maxPages, cache.files);
          return Raised;
        }
        var found := outcome.value;
        if found == [] && page == 1 {
          PagesEmptyFirst(step, before, maxPages, cache.files);
          assert all + [] == all;
          rest := SearchRun([], 1, false, cache.files);
          stop := true;
        } else {
          PagesNext(step, before, page, maxPages, found, cache.files);
          ghost var next := Pages(step, cache.files, page + 1, maxPages);
          AppendAssoc(all, found, next.products);
          all := all + found;
          page := page + 1;
          rest := next;
        }
      }
      assert rest.products == [] && rest.state == cache.files && !rest.raised;
      assert all == total.products && cache.files == total.state && !total.raised;
      result := Returned(DeduplicateById(all));
    }
  }
}
