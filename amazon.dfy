/** `AmazonScraper`: search result pages fetched through a funnel of three strategies (desktop
    HTTP, mobile HTTP, headless browser), checked for captcha and "no results" pages, and turned
    into validated product records, page after page, de-duplicated by id at the end. */
module Amazon {
  import opened Wrappers
  import opened PyText
  import opened PyNum
  import opened PyValue
  import opened Products
  import opened Validation
  import opened Patterns
  import opened Html
  import opened Listing
  import opened Cache
  import opened Fetch
  import opened Seqs
  import opened Paging

  const BaseUrl: string := "https://www.amazon.com"

  /** The captcha form whose presence marks a blocked page. */
  const CaptchaForm: string := "form[action=\"/errors/validateCaptcha\"]"
  /** Where the "no results" notice is looked for, and the notice itself. */
  const HeadingProbe: string := "h1, .a-row"
  const NoResultsNotice: string := "No results for"

  const ResultSelectors: seq<string> :=
    ["div[data-component-type=\"s-search-result\"]", "div.s-result-item[data-asin]"]
  const TitleSelectors: seq<string> :=
    ["h2 a span", "h2 span", "h2 a", ".a-link-normal span", "[data-cy=\"title-recipe-title\"]"]

  /** A price is read from a whole part and a fraction part, or from one price text. */
  datatype PriceRule = WholeAndFraction(whole: string, fraction: string) | PriceText(selector: string)

  const PriceRules: seq<PriceRule> := [
    WholeAndFraction("span.a-price-whole", "span.a-price-fraction"),
    PriceText("span.a-price .a-offscreen"),
    PriceText(".a-price-range .a-offscreen")]
  const RatingSelectors: seq<string> := ["span.a-icon-alt", "[aria-label*='out of']", "[data-cy*='rating']"]
  const ReviewSelectors: seq<string> :=
    ["span.a-size-base[dir=\"auto\"]", "a[href*=\"#reviews\"] span", "[data-cy*=\"reviews\"]"]
  const UrlSelectors: seq<string> :=
    ["a.a-link-normal.s-no-outline", "a.a-link-normal", "h2 a", "a[href*='/dp/']"]
  const CurrencySelector: string := "span.a-price-symbol"

  // ---------------------------------------------------------------------------------------------
  // URLs

  /** `_get_url(query, page_num, is_mobile)`: spaces in the query become `+`. */
  function GetUrl(query: string, page: int, mobile: bool): (u: string)
    ensures IsHttpUrl(u) && StartsWith(u, BaseUrl)
    ensures StartsWith(u, BaseUrl + (if mobile then "/gp/aw/s?k=" else "/s?k="))
  {
    var u := (if mobile then BaseUrl + "/gp/aw/s?k=" else BaseUrl + "/s?k=") + ReplaceChar(query, ' ', '+') + "&page=" + IntToString(page);
    BaseUrlIsHttp(u[|BaseUrl|..]);
    assert u == BaseUrl + u[|BaseUrl|..];
    u
  }

  /** Different pages of one search have different URLs, so their cache entries are separate. */
  lemma GetUrlPagesDiffer(query: string, p1: int, p2: int, mobile: bool)
    requires p1 != p2
    ensures GetUrl(query, p1, mobile) != GetUrl(query, p2, mobile)
  {
    var prefix := (if mobile then BaseUrl + "/gp/aw/s?k=" else BaseUrl + "/s?k=") + ReplaceChar(query, ' ', '+') + "&page=";
    if GetUrl(query, p1, mobile) == GetUrl(query, p2, mobile) {
      assert GetUrl(query, p1, mobile)[|prefix|..] == IntToString(p1);
      assert GetUrl(query, p2, mobile)[|prefix|..] == IntToString(p2);
      IntRoundTrip(p1);
      IntRoundTrip(p2);
    }
  }

  /** The mobile and the desktop URL of a page differ, so both HTTP strategies really fetch. */
  lemma GetUrlMobileDiffers(query: string, page: int)
    ensures GetUrl(query, page, true) != GetUrl(query, page, false)
  {
    assert GetUrl(query, page, true)[|BaseUrl| + 1] == 'g';
    assert GetUrl(query, page, false)[|BaseUrl| + 1] == 's';
  }

  lemma BaseUrlIsHttp(rest: string)
    ensures IsHttpUrl(BaseUrl + rest)
  {
    assert (BaseUrl + rest)[..|"https://"|] == "https://";
  }

  /** Letters, digits, `+`, `-` and `.`: the characters a scheme may hold. */
  predicate IsSchemeChar(c: char) {
    'a' <= c <= 'z' || 'A' <= c <= 'Z' || '0' <= c <= '9' || c == '+' || c == '-' || c == '.'
  }

  /** The scheme `urlsplit` finds in a link: the text before the first `:`, lower-cased, when
      that text is not empty, starts with a letter and holds only scheme characters. */
  function SchemeOf(href: string): Option<string> {
    var i := IndexOf(href, ':');
    if i < |href| && i > 0 && ('a' <= href[0] <= 'z' || 'A' <= href[0] <= 'Z')
       && forall k :: 0 <= k < i ==> IsSchemeChar(href[k])
    then Some(AsciiLower(href[..i]))
    else None
  }

  /** The link names a scheme other than the site's own `https`: `urljoin` hands it back as it
      is, `javascript:` and `mailto:` links as well as `http://` addresses. */
  predicate ForeignScheme(href: string) {
    SchemeOf(href).Some? && SchemeOf(href).value != "https"
  }

  /** `urljoin(base_url, href)`: a link with a foreign scheme and an absolute https address are
      kept as they are; a path is put under the site, with a `/` in between when the path lacks
      one. So the result is an http(s) address unless the link itself has a foreign scheme. */
  function Resolve(href: string): (u: string)
    ensures IsHttpUrl(u) || (u == href && ForeignScheme(href))
    ensures IsHttpUrl(href) || ForeignScheme(href) ==> u == href
    ensures !IsHttpUrl(href) && !ForeignScheme(href) ==>
      StartsWith(u, BaseUrl) && |href| <= |u| && u[|u| - |href|..] == href
  {
    if IsHttpUrl(href) || ForeignScheme(href) then href
    else
      var u := if StartsWith(href, "/") then BaseUrl + href else BaseUrl + "/" + href;
      BaseUrlIsHttp(u[|BaseUrl|..]);
      assert u == BaseUrl + u[|BaseUrl|..];
      assert u[|u| - |href|..] == href;
      u
  }

  /** A `javascript:` link is handed back as it is. */
  lemma ScriptLinkKept(rest: string)
    ensures Resolve("javascript:" + rest) == "javascript:" + rest
  {
    var h := "javascript:" + rest;
    var name := "javascript";
    assert h[..10] == name && h[10] == ':';
    var i := IndexOf(h, ':');
    assert i == 10;
    assert forall k :: 0 <= k < 10 ==> IsSchemeChar(h[k]) && 'a' <= name[k] <= 'z';
    assert AsciiLower(name) == name;
    assert SchemeOf(h) == Some(name);
  }

  // ---------------------------------------------------------------------------------------------
  // Page validity and parsing

  /** The text of the first `h1, .a-row`, or that of an empty node when there is none. */
  function HeadingText(d: Document): string {
    match DocFirst(d, HeadingProbe)
    case Some(e) => e.text
    case None => ""
  }

  /** `_is_valid_page(tree)`: no captcha form and no "No results for" in the first heading. */
  predicate IsValidPage(d: Document) {
    DocFirst(d, CaptchaForm).None? && !Contains(HeadingText(d), NoResultsNotice)
  }

  /** A page with the captcha form, or whose first heading announces no results, is invalid. */
  lemma InvalidPages(d: Document)
    ensures DocFirst(d, CaptchaForm).Some? ==> !IsValidPage(d)
    ensures Contains(HeadingText(d), NoResultsNotice) ==> !IsValidPage(d)
    ensures DocFirst(d, CaptchaForm).None? && DocFirst(d, HeadingProbe).None? ==> IsValidPage(d)
  {
  }

  /** `_parse_html`: an invalid page gives `([], False)`; a valid one gives the records of the
      items under the first result selector that matches, and `True`. */
  function ParsePage(d: Document): (r: (seq<Record>, bool))
    ensures !r.1 <==> !IsValidPage(d)
    ensures !r.1 ==> r.0 == []
    ensures r.1 ==> r.0 == Collect(FirstMatches(d, ResultSelectors), ProductInfo)
  {
    if !IsValidPage(d) then ([], false)
    else (Collect(FirstMatches(d, ResultSelectors), ProductInfo), true)
  }

  /** Every record an item yields is clean and carries source "Amazon". */
  lemma ProductInfoYieldsClean()
    ensures YieldsClean(ProductInfo, "Amazon")
  {
    forall n | ProductInfo(n).Some? ensures Clean(ProductInfo(n).value) && ProductInfo(n).value[Source] == Text("Amazon") {
      ProductInfoClean(n);
    }
  }

  lemma ParsePageHasIds(d: Document)
    ensures AllHaveId(ParsePage(d).0)
  {
    ProductInfoYieldsClean();
    CollectClean(FirstMatches(d, ResultSelectors), ProductInfo, "Amazon");
  }

  // ---------------------------------------------------------------------------------------------
  // Fields of one listing item

  /** One price rule: the whole part (commas dropped), a dot and the fraction when both texts
      are there; or the first number in the price text once its commas are dropped. A rule whose
      text `float()` rejects gives nothing, and the next rule is tried. */
  function PriceRuleValue(item: Node, rule: PriceRule): Option<real> {
    match rule
    case WholeAndFraction(w, f) =>
      var whole := StrippedTextOf(item, w);
      var fraction := StrippedTextOf(item, f);
      if whole.Some? && fraction.Some? then ParseFloat(RemoveChar(whole.value, ',') + "." + fraction.value)
      else None
    case PriceText(s) =>
      match StrippedTextOf(item, s)
      case None => None
      case Some(t) =>
        match FirstNumber(RemoveChar(t, ','))
        case None => None
        case Some(m) => ParseFloat(m)
  }

  /** A whole part made of digits and commas with a digit fraction reads as that decimal. */
  lemma WholeAndFractionPrice(item: Node, w: string, f: string)
    requires StrippedTextOf(item, w).Some? && StrippedTextOf(item, f).Some?
    requires var whole := StrippedTextOf(item, w).value;
      forall k :: 0 <= k < |whole| ==> IsDigitOrComma(whole[k])
    requires AllDigits(StrippedTextOf(item, f).value)
    ensures var whole := RemoveChar(StrippedTextOf(item, w).value, ',');
      AllDigits(whole) &&
      PriceRuleValue(item, WholeAndFraction(w, f)) == Some(DecimalValue(whole, StrippedTextOf(item, f).value))
  {
    var whole := RemoveChar(StrippedTextOf(item, w).value, ',');
    RemoveCommasDigits(StrippedTextOf(item, w).value);
    ParseDecimal(whole, StrippedTextOf(item, f).value);
  }

  /** A price text with a digit in it always yields a price: the number at its first digit. */
  lemma PriceTextPrice(item: Node, s: string)
    requires StrippedTextOf(item, s).Some?
    requires FirstNumber(RemoveChar(StrippedTextOf(item, s).value, ',')).Some?
    ensures PriceRuleValue(item, PriceText(s)).Some?
    ensures PriceRuleValue(item, PriceText(s)) == ParseFloat(FirstNumber(RemoveChar(StrippedTextOf(item, s).value, ',')).value)
  {
    FirstNumberParses(RemoveChar(StrippedTextOf(item, s).value, ','));
  }

  /** The number of one rating text: the one right before "out of" if there is one, else the
      first number in it. */
  function RatingText(t: string): Option<real> {
    match NumberBeforeOutOf(t)
    case Some(m) => ParseFloat(m)
    case None =>
      match FirstNumber(t)
      case Some(m) => ParseFloat(m)
      case None => None
  }

  /** A rating text with a digit in it always yields a number; one with a number before "out
      of" yields that number. */
  lemma RatingTextCases(t: string)
    ensures RatingText(t).Some? <==> exists k :: 0 <= k < |t| && IsDigit(t[k])
    ensures NumberBeforeOutOf(t).Some? ==> RatingText(t) == ParseFloat(NumberBeforeOutOf(t).value)
  {
    var i := RatingMatchFrom(t, 0);
    if i < |t| {
      NumberAtValue(t, i);
    } else if FirstNumber(t).Some? {
      FirstNumberParses(t);
    }
  }

  function RatingOf(item: Node, s: string): Option<real> {
    match StrippedTextOf(item, s)
    case None => None
    case Some(t) => RatingText(t)
  }

  /** The count of one review text: brackets removed, the first run of digits and commas, read
      as an integer without its commas; a run of commas only is rejected by `int()`. */
  function ReviewText(t: string): Option<int> {
    match FirstDigitCommaRun(RemoveChar(RemoveChar(t, '('), ')'))
    case None => None
    case Some(run) => ParseInt(RemoveChar(run, ','))
  }

  /** A review count that is found is the value of its digits, hence never negative. */
  lemma ReviewTextNonNegative(t: string)
    requires ReviewText(t).Some?
    ensures ReviewText(t).value >= 0
  {
    var run := FirstDigitCommaRun(RemoveChar(RemoveChar(t, '('), ')')).value;
    var digits := RemoveChar(run, ',');
    RemoveCommasDigits(run);
    assert digits != [];
    assert IsDigit(digits[0]);
    NumeralStrip(digits);
    ParseIntOfNumeral(digits, false, digits);
  }

  function ReviewCountOf(item: Node, s: string): Option<int> {
    match StrippedTextOf(item, s)
    case None => None
    case Some(t) => ReviewText(t)
  }

  function UrlOf(item: Node, s: string): Option<string> {
    match AttrOf(item, s, "href")
    case None => None
    case Some(h) => Some(Resolve(h))
  }

  /** `get_text("span.a-price-symbol", default="$")`. */
  function CurrencyOf(item: Node): string {
    match CssFirst(item, CurrencySelector)
    case Some(e) => e.strippedText
    case None => "$"
  }

  function TitleRule(item: Node): string -> Option<string> { s => StrippedTextOf(item, s) }
  function PriceRuleOf(item: Node): PriceRule -> Option<real> { rule => PriceRuleValue(item, rule) }
  function RatingRule(item: Node): string -> Option<real> { s => RatingOf(item, s) }
  function ReviewRule(item: Node): string -> Option<int> { s => ReviewCountOf(item, s) }
  function UrlRule(item: Node): string -> Option<string> { s => UrlOf(item, s) }

  /** `f"{self.base_url}/dp/{asin}"`: the product page of an asin, the link used when none is found. */
  function ProductPage(asin: string): string {
    BaseUrl + "/dp/" + asin
  }

  lemma ProductPageIsHttp(asin: string)
    ensures IsHttpUrl(ProductPage(asin))
  {
    BaseUrlIsHttp("/dp/" + asin);
    AppendAssoc(BaseUrl, "/dp/", asin);
  }

  /** The raw dictionary built from the extracted fields. */
  function RawProduct(asin: string, title: string, url: string, price: Option<real>, currency: string,
                      rating: Option<real>, reviews: Option<int>): Record {
    Assemble(Text(asin), Text(title), Text(url), Text("Amazon"), Text(currency),
             FloatOrNone(rating), IntOrNone(reviews), Some(FloatOrNone(price)))
  }

  /** What `_extract_product_info` makes of the fields its rule chains found: nothing without an
      asin or a title; otherwise the validated dictionary, the link defaulting to the product page
      of the asin. */
  function ProductOf(asin: Option<string>, title: Option<string>, href: Option<string>, price: Option<real>,
                     currency: string, rating: Option<real>, reviews: Option<int>): Option<Record>
  {
    if asin.None? || title.None? then None
    else
      var url := if href.Some? then href.value else ProductPage(asin.value);
      Validate(RawProduct(asin.value, title.value, url, price, currency, rating, reviews))
  }

  /** `_extract_product_info(item)`: the `data-asin` attribute, then the first title, price,
      rating, review count and link the rule chains find, and the currency symbol. */
  function ProductInfo(item: Node): Option<Record> {
    ProductOf(NonEmpty(Attr(item.attrs, "data-asin")), FirstSome(TitleSelectors, TitleRule(item)),
              FirstSome(UrlSelectors, UrlRule(item)), FirstSome(PriceRules, PriceRuleOf(item)), CurrencyOf(item),
              FirstSome(RatingSelectors, RatingRule(item)), FirstSome(ReviewSelectors, ReviewRule(item)))
  }

  /** A record is made exactly when there is an asin and a title and neither is blank once
      stripped. */
  lemma ProductOfPresence(asin: Option<string>, title: Option<string>, href: Option<string>, price: Option<real>,
                          currency: string, rating: Option<real>, reviews: Option<int>)
    ensures ProductOf(asin, title, href, price, currency, rating, reviews).Some? <==>
      asin.Some? && title.Some? && Strip(asin.value) != [] && Strip(title.value) != []
  {
    if asin.Some? && title.Some? {
      RawPresence(asin.value, title.value, if href.Some? then href.value else ProductPage(asin.value),
                  price, currency, rating, reviews);
    }
  }

  lemma RawPresence(asin: string, title: string, url: string, price: Option<real>, currency: string,
                    rating: Option<real>, reviews: Option<int>)
    ensures Validate(RawProduct(asin, title, url, price, currency, rating, reviews)).Some? <==>
      Strip(asin) != [] && Strip(title) != []
  {
    var raw := RawProduct(asin, title, url, price, currency, rating, reviews);
    TextIdPresence(raw, asin);
    TextTitlePresence(raw, title);
  }

  /** A record carries the stripped asin as its id, the stripped title cut to 200 characters,
      source "Amazon", the currency found, the cleaned rating and review count, and the price
      when it is not negative (`None` when none was read, no price at all when it is negative).
      Its url is the stripped link (the product page of the asin when no link was found) when
      that is an http(s) address, and `None` otherwise; the product page always is one. */
  lemma ProductOfFields(asin: Option<string>, title: Option<string>, href: Option<string>, price: Option<real>,
                        currency: string, rating: Option<real>, reviews: Option<int>)
    requires ProductOf(asin, title, href, price, currency, rating, reviews).Some?
    ensures asin.Some? && title.Some?
    ensures var p := ProductOf(asin, title, href, price, currency, rating, reviews).value;
      var url := if href.Some? then href.value else ProductPage(asin.value);
      && p[Id] == Text(Strip(asin.value))
      && p[Title] == Text(Take(Strip(title.value), TitleLimit))
      && p[Source] == Text("Amazon") && p[Currency] == Text(currency)
      && p[Url] == (if IsHttpUrl(Strip(url)) then Text(Strip(url)) else Null)
      && (href.None? ==> p[Url].Text?)
      && p[Rating] == CleanRating(FloatOrNone(rating))
      && p[ReviewCount] == CleanReviewCount(IntOrNone(reviews))
      && (price.None? ==> Price in p && Get(p, Price) == Null)
      && (price.Some? && price.value >= 0.0 ==> Price in p && Get(p, Price) == Float(price.value))
      && (price.Some? && price.value < 0.0 ==> Price !in p)
  {
    var url := if href.Some? then href.value else ProductPage(asin.value);
    if href.None? {
      ProductPageIsHttp(asin.value);
      StripOfHttp(url);
    }
    RawFields(asin.value, title.value, url, price, currency, rating, reviews);
  }

  lemma RawFields(asin: string, title: string, url: string, price: Option<real>, currency: string,
                  rating: Option<real>, reviews: Option<int>)
    requires Validate(RawProduct(asin, title, url, price, currency, rating, reviews)).Some?
    ensures var p := Validate(RawProduct(asin, title, url, price, currency, rating, reviews)).value;
      && p[Id] == Text(Strip(asin))
      && p[Title] == Text(Take(Strip(title), TitleLimit))
      && p[Source] == Text("Amazon") && p[Currency] == Text(currency)
      && p[Url] == (if IsHttpUrl(Strip(url)) then Text(Strip(url)) else Null)
      && p[Rating] == CleanRating(FloatOrNone(rating))
      && p[ReviewCount] == CleanReviewCount(IntOrNone(reviews))
      && (price.None? ==> Price in p && Get(p, Price) == Null)
      && (price.Some? && price.value >= 0.0 ==> Price in p && Get(p, Price) == Float(price.value))
      && (price.Some? && price.value < 0.0 ==> Price !in p)
  {
    var raw := RawProduct(asin, title, url, price, currency, rating, reviews);
    ValidateFields(raw);
    CleanUrlRange(raw[Url]);
    CleanReadPrice(price);
  }

  /** Every record is clean and carries source "Amazon". */
  lemma ProductOfClean(asin: Option<string>, title: Option<string>, href: Option<string>, price: Option<real>,
                       currency: string, rating: Option<real>, reviews: Option<int>)
    requires ProductOf(asin, title, href, price, currency, rating, reviews).Some?
    ensures var p := ProductOf(asin, title, href, price, currency, rating, reviews).value;
      Clean(p) && p[Source] == Text("Amazon")
  {
    var url := if href.Some? then href.value else ProductPage(asin.value);
    var raw := RawProduct(asin.value, title.value, url, price, currency, rating, reviews);
    ValidateClean(raw);
    ValidateFields(raw);
  }

  /** Every link the link chain finds is an http(s) address, unless the item's own `href` has a
      foreign scheme and was handed back as it is. */
  lemma UrlChainResolved(item: Node)
    ensures var href := FirstSome(UrlSelectors, UrlRule(item));
      href.Some? ==>
        (IsHttpUrl(href.value) ||
         exists i :: 0 <= i < |UrlSelectors| && AttrOf(item, UrlSelectors[i], "href") == href && ForeignScheme(href.value))
  {
    FirstSomeSpec(UrlSelectors, UrlRule(item));
    var href := FirstSome(UrlSelectors, UrlRule(item));
    if href.Some? {
      var i :| 0 <= i < |UrlSelectors| && UrlRule(item)(UrlSelectors[i]) == href;
    }
  }

  /** An item without an asin, or without text under every title selector, yields nothing; one
      with both yields a record exactly when neither is blank once stripped. */
  lemma ProductInfoPresence(item: Node)
    ensures NonEmpty(Attr(item.attrs, "data-asin")).None? ==> ProductInfo(item).None?
    ensures (forall i :: 0 <= i < |TitleSelectors| ==> StrippedTextOf(item, TitleSelectors[i]).None?) ==>
      ProductInfo(item).None?
    ensures var asin, title := NonEmpty(Attr(item.attrs, "data-asin")), FirstSome(TitleSelectors, TitleRule(item));
      asin.Some? && title.Some? ==>
        (ProductInfo(item).Some? <==> Strip(asin.value) != [] && Strip(title.value) != [])
  {
    ProductOfPresence(NonEmpty(Attr(item.attrs, "data-asin")), FirstSome(TitleSelectors, TitleRule(item)),
                      FirstSome(UrlSelectors, UrlRule(item)), FirstSome(PriceRules, PriceRuleOf(item)), CurrencyOf(item),
                      FirstSome(RatingSelectors, RatingRule(item)), FirstSome(ReviewSelectors, ReviewRule(item)));
    FirstSomeSpec(TitleSelectors, TitleRule(item));
    if (forall i :: 0 <= i < |TitleSelectors| ==> StrippedTextOf(item, TitleSelectors[i]).None?) {
      assert forall i :: 0 <= i < |TitleSelectors| ==> TitleRule(item)(TitleSelectors[i]).None?;
    }
  }

  /** A record from an item carries the asin as its id, the first title found (stripped, cut to
      200 characters), source "Amazon", and as its url an http(s) address: a link to Amazon or
      the absolute address the item gives. The url is `None` only when the item's link has a
      foreign scheme and is not an http address, as a `javascript:` link is. */
  lemma ProductInfoFields(item: Node)
    requires ProductInfo(item).Some?
    ensures var asin, title := NonEmpty(Attr(item.attrs, "data-asin")), FirstSome(TitleSelectors, TitleRule(item));
      var p := ProductInfo(item).value;
      asin.Some? && title.Some? &&
      p[Id] == Text(Strip(asin.value)) &&
      p[Title] == Text(Take(Strip(title.value), TitleLimit)) &&
      p[Source] == Text("Amazon") &&
      (p[Url].Null? || (p[Url].Text? && IsHttpUrl(p[Url].s)))
    ensures var href := FirstSome(UrlSelectors, UrlRule(item));
      ProductInfo(item).value[Url].Null? ==> href.Some? && ForeignScheme(href.value) && !IsHttpUrl(href.value)
  {
    var href := FirstSome(UrlSelectors, UrlRule(item));
    UrlChainResolved(item);
    ProductOfFields(NonEmpty(Attr(item.attrs, "data-asin")), FirstSome(TitleSelectors, TitleRule(item)),
                    href, FirstSome(PriceRules, PriceRuleOf(item)), CurrencyOf(item),
                    FirstSome(RatingSelectors, RatingRule(item)), FirstSome(ReviewSelectors, ReviewRule(item)));
    if href.Some? && IsHttpUrl(href.value) {
      StripOfHttp(href.value);
    }
  }

  /** An http(s) address keeps its scheme when stripped. */
  lemma StripOfHttp(u: string)
    requires IsHttpUrl(u)
    ensures IsHttpUrl(Strip(u))
  {
    if StartsWith(u, "https://") {
      StripKeepsPrefix(u, "https://");
    } else {
      StripKeepsPrefix(u, "http://");
    }
  }

  lemma ProductInfoClean(item: Node)
    requires ProductInfo(item).Some?
    ensures Clean(ProductInfo(item).value) && ProductInfo(item).value[Source] == Text("Amazon")
  {
    ProductOfClean(NonEmpty(Attr(item.attrs, "data-asin")), FirstSome(TitleSelectors, TitleRule(item)),
                   FirstSome(UrlSelectors, UrlRule(item)), FirstSome(PriceRules, PriceRuleOf(item)), CurrencyOf(item),
                   FirstSome(RatingSelectors, RatingRule(item)), FirstSome(ReviewSelectors, ReviewRule(item)));
  }

  // ---------------------------------------------------------------------------------------------
  // The strategy funnel and the page loop

  /** The three strategies, in the order the funnel tries them. */
  datatype Strategy = DesktopHttp | MobileHttp | Browser

  /** What a fetched page contributes: its records when the page is there (non-empty), valid and
      has records; nothing otherwise. */
  function Usable(html: Option<string>, parse: string -> Document): (r: Option<seq<Record>>)
    ensures r.Some? ==> r.value != []
  {
    if html.None? || html.value == [] then None
    else
      var (products, valid) := ParsePage(parse(html.value));
      if valid && products != [] then Some(products) else None
  }

  /** One run of the funnel: the records, the strategies tried in order, and the cache after. */
  datatype FunnelRun = FunnelRun(products: seq<Record>, tried: seq<Strategy>, files: map<string, CacheFile>)

  /** `_execute_strategy_funnel`: desktop HTTP (3 retries), then mobile HTTP (3 retries), then
      the browser (2 retries) on the desktop URL, each through the cache; the first whose page is
      usable wins and the rest are not run; when none is, the result is `[]`. */
  function Funnel(files: map<string, CacheFile>, net: Network, parse: string -> Document, maxAge: int,
                  query: string, page: int): FunnelRun
  {
    var desktop := GetUrl(query, page, false);
    var d := CachedFetch(files, desktop, net.now, maxAge, HttpOp(net, desktop), 3);
    var pd := Usable(d.html, parse);
    if pd.Some? then FunnelRun(pd.value, [DesktopHttp], d.files)
    else MobileThenBrowser(d.files, net, parse, maxAge, query, page)
  }

  /** The rest of the funnel after the desktop page: the mobile page, then the browser. */
  function MobileThenBrowser(files: map<string, CacheFile>, net: Network, parse: string -> Document, maxAge: int,
                             query: string, page: int): FunnelRun
  {
    var desktop, mobile := GetUrl(query, page, false), GetUrl(query, page, true);
    var m := CachedFetch(files, mobile, net.now, maxAge, HttpOp(net, mobile), 3);
    var pm := Usable(m.html, parse);
    if pm.Some? then FunnelRun(pm.value, [DesktopHttp, MobileHttp], m.files)
    else
      var b := CachedFetch(m.files, desktop, net.now, maxAge, BrowserOp(net, desktop), 2);
      var pb := Usable(b.html, parse);
      FunnelRun(if pb.Some? then pb.value else [], [DesktopHttp, MobileHttp, Browser], b.files)
  }

  /** The strategies run in order, stopping at the first usable page: a run with records ends
      with the strategy that produced them and tried none after it, and a run without records
      tried all three. The desktop page wins when it is usable; otherwise the mobile page when
      it is; otherwise the browser's page when it is, and `[]` when it is not. */
  lemma FunnelOrder(files: map<string, CacheFile>, net: Network, parse: string -> Document, maxAge: int,
                    query: string, page: int)
    ensures var r := Funnel(files, net, parse, maxAge, query, page);
      r.tried == [DesktopHttp] || r.tried == [DesktopHttp, MobileHttp] || r.tried == [DesktopHttp, MobileHttp, Browser]
    ensures var r := Funnel(files, net, parse, maxAge, query, page);
      r.products == [] ==> r.tried == [DesktopHttp, MobileHttp, Browser]
    ensures var r := Funnel(files, net, parse, maxAge, query, page);
      var d := CachedFetch(files, GetUrl(query, page, false), net.now, maxAge, HttpOp(net, GetUrl(query, page, false)), 3);
      Usable(d.html, parse).Some? ==> r == FunnelRun(Usable(d.html, parse).value, [DesktopHttp], d.files)
    ensures var r := Funnel(files, net, parse, maxAge, query, page);
      var desktop, mobile := GetUrl(query, page, false), GetUrl(query, page, true);
      var d := CachedFetch(files, desktop, net.now, maxAge, HttpOp(net, desktop), 3);
      var m := CachedFetch(d.files, mobile, net.now, maxAge, HttpOp(net, mobile), 3);
      Usable(d.html, parse).None? && Usable(m.html, parse).Some? ==>
        r == FunnelRun(Usable(m.html, parse).value, [DesktopHttp, MobileHttp], m.files)
    ensures var r := Funnel(files, net, parse, maxAge, query, page);
      var desktop, mobile := GetUrl(query, page, false), GetUrl(query, page, true);
      var d := CachedFetch(files, desktop, net.now, maxAge, HttpOp(net, desktop), 3);
      var m := CachedFetch(d.files, mobile, net.now, maxAge, HttpOp(net, mobile), 3);
      var b := CachedFetch(m.files, desktop, net.now, maxAge, BrowserOp(net, desktop), 2);
      var pb := Usable(b.html, parse);
      Usable(d.html, parse).None? && Usable(m.html, parse).None? ==>
        r == FunnelRun(if pb.Some? then pb.value else [], [DesktopHttp, MobileHttp, Browser], b.files)
  {
  }

  /** All records of a funnel run are clean and carry an id. */
  lemma FunnelHasIds(files: map<string, CacheFile>, net: Network, parse: string -> Document, maxAge: int,
                     query: string, page: int)
    ensures AllHaveId(Funnel(files, net, parse, maxAge, query, page).products)
  {
    var desktop, mobile := GetUrl(query, page, false), GetUrl(query, page, true);
    var d := CachedFetch(files, desktop, net.now, maxAge, HttpOp(net, desktop), 3);
    var m := CachedFetch(d.files, mobile, net.now, maxAge, HttpOp(net, mobile), 3);
    var b := CachedFetch(m.files, desktop, net.now, maxAge, BrowserOp(net, desktop), 2);
    UsableHasIds(d.html, parse);
    UsableHasIds(m.html, parse);
    UsableHasIds(b.html, parse);
  }

  lemma UsableHasIds(html: Option<string>, parse: string -> Document)
    ensures Usable(html, parse).Some? ==> AllHaveId(Usable(html, parse).value)
  {
    if html.Some? && html.value != [] {
      ParsePageHasIds(parse(html.value));
    }
  }

  /** When the desktop HTTP fetch brought a page, the browser strategy of the same page is served
      that page from the cache and never opens the browser: a page rejected once is rejected
      again for as long as it stays cached. */
  lemma BrowserServedFromCache(files: map<string, CacheFile>, net: Network, maxAge: int, query: string, page: int)
    requires maxAge > 0
    ensures var desktop, mobile := GetUrl(query, page, false), GetUrl(query, page, true);
      var d := CachedFetch(files, desktop, net.now, maxAge, HttpOp(net, desktop), 3);
      var m := CachedFetch(d.files, mobile, net.now, maxAge, HttpOp(net, mobile), 3);
      d.html.Some? ==>
        CachedFetch(m.files, desktop, net.now, maxAge, BrowserOp(net, desktop), 2) == Fetched(d.html, m.files)
  {
    var desktop, mobile := GetUrl(query, page, false), GetUrl(query, page, true);
    var d := CachedFetch(files, desktop, net.now, maxAge, HttpOp(net, desktop), 3);
    var m := CachedFetch(d.files, mobile, net.now, maxAge, HttpOp(net, mobile), 3);
    if d.html.Some? {
      GetUrlMobileDiffers(query, page);
      assert Lookup(d.files, desktop, net.now, maxAge) == d.html by {
        if Lookup(files, desktop, net.now, maxAge).None? {
          MissWritesPage(files, desktop, net.now, maxAge, HttpOp(net, desktop), 3, net.now);
        }
      }
      assert Lookup(m.files, desktop, net.now, maxAge) == d.html by {
        if Lookup(d.files, mobile, net.now, maxAge).None? {
          MissWritesPage(d.files, mobile, net.now, maxAge, HttpOp(net, mobile), 3, net.now);
        }
      }
    }
  }

  /** The funnel as a step of the shared page loop: it never raises. */
  function FunnelStep(net: Network, parse: string -> Document, maxAge: int, query: string)
    : (map<string, CacheFile>, int) -> Step<map<string, CacheFile>>
  {
    (files, page) => var f := Funnel(files, net, parse, maxAge, query, page); Found(f.products, f.files)
  }

  /** The step is the funnel run. */
  lemma StepOfFunnel(net: Network, parse: string -> Document, maxAge: int, query: string,
                     files: map<string, CacheFile>, page: int, run: FunnelRun)
    requires run == Funnel(files, net, parse, maxAge, query, page)
    ensures FunnelStep(net, parse, maxAge, query)(files, page) == Found(run.products, run.files)
  {
  }

  /** The funnel step never raises and finds only records with an id. */
  lemma FunnelStepProperties(net: Network, parse: string -> Document, maxAge: int, query: string)
    ensures NeverFails(FunnelStep(net, parse, maxAge, query))
    ensures FoundHaveIds(FunnelStep(net, parse, maxAge, query))
  {
    forall files, page ensures AllHaveId(FunnelStep(net, parse, maxAge, query)(files, page).products) {
      FunnelHasIds(files, net, parse, maxAge, query, page);
    }
  }

  /** Every page from 1 to `maxPages` is visited unless the first page has no records, in which
      case only that one is: the funnel never reports a failure that would stop the loop. */
  lemma SearchPagesVisited(files: map<string, CacheFile>, net: Network, parse: string -> Document, maxAge: int,
                           query: string, maxPages: int)
    ensures var r := Pages(FunnelStep(net, parse, maxAge, query), files, 1, maxPages);
      !r.raised &&
      r.visited == if maxPages < 1 then 0
                   else if Funnel(files, net, parse, maxAge, query, 1).products == [] then 1
                   else maxPages
  {
    FunnelStepProperties(net, parse, maxAge, query);
    PagesVisited(FunnelStep(net, parse, maxAge, query), files, maxPages);
  }

  /** What `search_products` returns: the records of all visited pages, one per id, the last one
      seen for each. */
  function Search(files: map<string, CacheFile>, net: Network, parse: string -> Document, maxAge: int,
                  query: string, maxPages: int): seq<Record>
  {
    FunnelStepProperties(net, parse, maxAge, query);
    PagesHaveIds(FunnelStep(net, parse, maxAge, query), files, 1, maxPages);
    DeduplicateById(Pages(FunnelStep(net, parse, maxAge, query), files, 1, maxPages).products)
  }

  /** The search de-duplicates what the page loop collected. */
  lemma SearchOutcome(files: map<string, CacheFile>, net: Network, parse: string -> Document, maxAge: int,
                      query: string, maxPages: int)
    ensures var run := Pages(FunnelStep(net, parse, maxAge, query), files, 1, maxPages);
      AllHaveId(run.products) && Search(files, net, parse, maxAge, query, maxPages) == DeduplicateById(run.products)
  {
    FunnelStepProperties(net, parse, maxAge, query);
    PagesHaveIds(FunnelStep(net, parse, maxAge, query), files, 1, maxPages);
  }

  /** The search gives one record per distinct id found on the visited pages, each the last
      record seen with that id, every one of them clean. */
  lemma SearchProperties(files: map<string, CacheFile>, net: Network, parse: string -> Document, maxAge: int,
                         query: string, maxPages: int)
    ensures var r := Search(files, net, parse, maxAge, query, maxPages);
      AllHaveId(r) && forall i, j :: 0 <= i < j < |r| ==> KeyOf(r[i][Id]) != KeyOf(r[j][Id])
    ensures var found := Pages(FunnelStep(net, parse, maxAge, query), files, 1, maxPages).products;
      var r := Search(files, net, parse, maxAge, query, maxPages);
      AllHaveId(found) && forall j :: 0 <= j < |found| ==> IdKeys(found)[j] in IdKeys(r)
  {
    FunnelStepProperties(net, parse, maxAge, query);
    var found := Pages(FunnelStep(net, parse, maxAge, query), files, 1, maxPages).products;
    PagesHaveIds(FunnelStep(net, parse, maxAge, query), files, 1, maxPages);
    DeduplicateByIdProperties(found);
  }

  class AmazonScraper {
    /** `FileCache()`. */
    const cache: FileCache
    /** `HTMLParser`: what the parsing library makes of a page. */
    const parse: string -> Document

    constructor (parse: string -> Document, stored: map<string, CacheFile>)
      ensures this.parse == parse && fresh(cache)
      ensures cache.files == stored && cache.maxAge == DefaultMaxAgeHours * HourMicros
    {
      this.parse := parse;
      cache := new FileCache(DefaultMaxAgeHours, stored);
    }

    /** `_fetch_with_httpx`: the page URL through the cache, else three retries over HTTP. */
    method FetchWithHttpx(net: Network, query: string, page: int, mobile: bool) returns (html: Option<string>)
      modifies cache
      ensures var url := GetUrl(query, page, mobile);
        Fetched(html, cache.files) == CachedFetch(old(cache.files), url, net.now, cache.maxAge, HttpOp(net, url), 3)
    {
      var url := GetUrl(query, page, mobile);
      html := CachedFetchFrom(cache, url, net, HttpOp(net, url), 3);
    }

    /** `_fetch_with_playwright`: the desktop URL through the cache, else two retries in the
      browser. */
    method FetchWithPlaywright(net: Network, query: string, page: int) returns (html: Option<string>)
      modifies cache
      ensures var url := GetUrl(query, page, false);
        Fetched(html, cache.files) == CachedFetch(old(cache.files), url, net.now, cache.maxAge, BrowserOp(net, url), 2)
    {
      var url := GetUrl(query, page, false);
      html := CachedFetchFrom(cache, url, net, BrowserOp(net, url), 2);
    }

    /** `_extract_product_info`: the selector loops, each stopping at its first success. */
    method ExtractProductInfo(item: Node) returns (r: Option<Record>)
      ensures r == ProductInfo(item)
    {
      var asin := NonEmpty(Attr(item.attrs, "data-asin"));
      if asin.None? {
        return None;
      }
      var title := TryInOrder(TitleSelectors, TitleRule(item));
      if title.None? {
        return None;
      }
      var price := TryInOrder(PriceRules, PriceRuleOf(item));
      var rating := TryInOrder(RatingSelectors, RatingRule(item));
      var reviews := TryInOrder(ReviewSelectors, ReviewRule(item));
      var href := TryInOrder(UrlSelectors, UrlRule(item));
      var url := if href.Some? then href.value else ProductPage(asin.value);
      r := Validate(RawProduct(asin.value, title.value, url, price, CurrencyOf(item), rating, reviews));
    }

    /** `_parse_html`: validity first, then one record per item that yields one. */
    method ParseHtml(html: string) returns (products: seq<Record>, valid: bool)
      ensures (products, valid) == ParsePage(parse(html))
    {
      var tree := parse(html);
      if !IsValidPage(tree) {
        return [], false;
      }
      var container := FirstMatches(tree, ResultSelectors);
      products := ExtractAll(container);
      valid := true;
    }

    /** The item loop of `_parse_html`: each item's record, when it yields one, in item order. */
    method ExtractAll(items: seq<Node>) returns (products: seq<Record>)
      ensures products == Collect(items, ProductInfo)
    {
      products := [];
      var i := 0;
      while i < |items|
        invariant 0 <= i <= |items|
        invariant products == Collect(items[..i], ProductInfo)
      {
        var product := ExtractProductInfo(items[i]);
        CollectStep(items, ProductInfo, i, product);
        products := products + if product.Some? then [product.value] else [];
        i := i + 1;
      }
      PrefixAll(items);
    }

    /** One strategy's page, parsed: its records when it is usable. */
    method UsablePage(html: Option<string>) returns (r: Option<seq<Record>>)
      ensures r == Usable(html, parse)
    {
      if html.None? || html.value == [] {
        return None;
      }
      var products, valid := ParseHtml(html.value);
      r := if valid && products != [] then Some(products) else None;
    }

    /** One HTTP strategy: its page fetched through the cache, and what that page contributes. */
    method HttpxStrategy(net: Network, query: string, page: int, mobile: bool) returns (found: Option<seq<Record>>)
      modifies cache
      ensures var url := GetUrl(query, page, mobile);
        var f := CachedFetch(old(cache.files), url, net.now, cache.maxAge, HttpOp(net, url), 3);
        found == Usable(f.html, parse) && cache.files == f.files
    {
      var html := FetchWithHttpx(net, query, page, mobile);
      found := UsablePage(html);
    }

    /** The browser strategy: its page fetched through the cache, and what that page contributes. */
    method BrowserStrategy(net: Network, query: string, page: int) returns (found: Option<seq<Record>>)
      modifies cache
      ensures var url := GetUrl(query, page, false);
        var f := CachedFetch(old(cache.files), url, net.now, cache.maxAge, BrowserOp(net, url), 2);
        found == Usable(f.html, parse) && cache.files == f.files
    {
      var html := FetchWithPlaywright(net, query, page);
      found := UsablePage(html);
    }

    /** `_execute_strategy_funnel`. */
    method ExecuteStrategyFunnel(net: Network, query: string, page: int) returns (products: seq<Record>, tried: seq<Strategy>)
      modifies cache
      ensures FunnelRun(products, tried, cache.files) == Funnel(old(cache.files), net, parse, cache.maxAge, query, page)
    {
      var found := HttpxStrategy(net, query, page, false);
      if found.Some? {
        return found.value, [DesktopHttp];
      }
      products, tried := AfterDesktop(net, query, page);
    }

    /** The funnel once the desktop page gave nothing: the mobile page, then the browser. */
    method AfterDesktop(net: Network, query: string, page: int) returns (products: seq<Record>, tried: seq<Strategy>)
      modifies cache
      ensures FunnelRun(products, tried, cache.files) == MobileThenBrowser(old(cache.files), net, parse, cache.maxAge, query, page)
    {
      var found := HttpxStrategy(net, query, page, true);
      if found.Some? {
        return found.value, [DesktopHttp, MobileHttp];
      }
      found := BrowserStrategy(net, query, page);
      products, tried := if found.Some? then found.value else [], [DesktopHttp, MobileHttp, Browser];
    }

    /** One turn of the page loop: the funnel on page `page`, as the page loop sees it. */
    method FunnelPage(net: Network, query: string, page: int, maxPages: int) returns (found: seq<Record>)
      requires 1 <= page <= maxPages
      modifies cache
      ensures var step := FunnelStep(net, parse, cache.maxAge, query);
        var rest := Pages(step, old(cache.files), page, maxPages);
        var next := Pages(step, cache.files, page + 1, maxPages);
        if found == [] && page == 1 then rest == SearchRun([], 1, false, cache.files)
        else rest.products == found + next.products && rest.state == next.state
    {
      ghost var before := cache.files;
      var tried;
      found, tried := ExecuteStrategyFunnel(net, query, page);
      StepOfFunnel(net, parse, cache.maxAge, query, before, page, FunnelRun(found, tried, cache.files));
      if found == [] && page == 1 {
        PagesEmptyFirst(FunnelStep(net, parse, cache.maxAge, query), before, maxPages, cache.files);
      } else {
        PagesNext(FunnelStep(net, parse, cache.maxAge, query), before, page, maxPages, found, cache.files);
      }
    }

    /** `search_products(query, max_pages)`. */
    method SearchProducts(net: Network, query: string, maxPages: int) returns (products: seq<Record>)
      modifies cache
      ensures var run := Pages(FunnelStep(net, parse, cache.maxAge, query), old(cache.files), 1, maxPages);
        products == Search(old(cache.files), net, parse, cache.maxAge, query, maxPages) && cache.files == run.state
    {
      SearchOutcome(cache.files, net, parse, cache.maxAge, query, maxPages);
      var all := AllPages(net, query, maxPages);
      products := DeduplicateById(all);
    }

    /** The page loop of `search_products`: the records of every page visited, in page order. */
    method AllPages(net: Network, query: string, maxPages: int) returns (all: seq<Record>)
      modifies cache
      ensures var run := Pages(FunnelStep(net, parse, cache.maxAge, query), old(cache.files), 1, maxPages);
        all == run.products && cache.files == run.state
    {
      ghost var step := FunnelStep(net, parse, cache.maxAge, query);
      ghost var total := Pages(step, cache.files, 1, maxPages);
      ghost var rest := total;
      all := [];
      var page := 1;
      var stop := false;
      while page <= maxPages && !stop
        invariant page >= 1
        invariant !stop ==> rest == Pages(step, cache.files, page, maxPages)
        invariant stop ==> rest == SearchRun([], 1, false, cache.files)
        invariant all + rest.products == total.products && rest.state == total.state
        decreases maxPages - page + 1, if stop then 0 else 1
      {
        var found := FunnelPage(net, query, page, maxPages);
        if found == [] && page == 1 {
          assert all + [] == all;
          rest := SearchRun([], 1, false, cache.files);
          stop := true;
        } else {
          ghost var next := Pages(step, cache.files, page + 1, maxPages);
          AppendAssoc(all, found, next.products);
          all := all + found;
          page := page + 1;
          rest := next;
        }
      }
      assert rest.products == [] && rest.state == cache.files;
    }
  }
}
