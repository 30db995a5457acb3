/** `validate_product_data`: the cleaning every scraped product goes through before it is kept. */
module Validation {
  import opened Wrappers
  import opened PyText
  import opened PyNum
  import opened PyValue
  import opened Products

  /** Titles are cut to this many characters. */
  const TitleLimit := 200

  /** `s[:n]`. */
  function Take(s: string, n: nat): (r: string)
    ensures |r| == if |s| <= n then |s| else n
    ensures r == s[..|r|]
  {
    if |s| <= n then s else s[..n]
  }

  /** The record carries an id: truthy, and not blank once rendered with `str` and stripped. */
  predicate HasId(p: Record) {
    Truthy(Get(p, Id)) && Strip(PyStr(Get(p, Id))) != []
  }

  /** The record carries a title: a string that is not blank. */
  predicate HasTitle(p: Record) {
    Get(p, Title).Text? && Strip(Get(p, Title).s) != []
  }

  /** The cleaned price: `Some(v)` stores `v`, `None` leaves the key out. A negative number is
      dropped without storing anything; a value `float()` rejects becomes `None`. */
  function CleanPrice(v: Value): (r: Option<Value>)
  {
    if v.Null? then Some(Null)
    else match ToFloat(v)
      case None => Some(Null)
      case Some(x) => if x >= 0.0 then Some(Float(x)) else None
  }

  predicate IsHttpUrl(u: string) {
    StartsWith(u, "http://") || StartsWith(u, "https://")
  }

  /** The cleaned URL: a non-blank string is stripped and kept when it is an http(s) address. */
  function CleanUrl(v: Value): (r: Value)
  {
    if v.Text? && v.s != [] && Strip(v.s) != [] then
      var u := Strip(v.s);
      if IsHttpUrl(u) then Text(u) else Null
    else Null
  }

  /** The cleaned rating: a number on the five-star scale, anything else `None`. */
  function CleanRating(v: Value): (r: Value)
  {
    if v.Null? then Null
    else match ToFloat(v)
      case None => Null
      case Some(x) => if 0.0 <= x <= 5.0 then Float(x) else Null
  }

  /** The cleaned review count: a non-negative `int()` of the value, anything else `None`. */
  function CleanReviewCount(v: Value): (r: Value)
  {
    if v.Null? then Null
    else match ToInt(v)
      case None => Null
      case Some(n) => if n >= 0 then Int(n) else Null
  }

  /** `validate_product_data(p)`: `None` exactly for a record without id or title. */
  function Validate(p: Record): (r: Option<Record>)
    ensures r.Some? <==> HasId(p) && HasTitle(p)
  {
    if !HasId(p) || !HasTitle(p) then None
    else Some(Assemble(
      Text(Strip(PyStr(Get(p, Id)))),
      Text(Take(Strip(Get(p, Title).s), TitleLimit)),
      CleanUrl(Get(p, Url)),
      Get(p, Source),
      Get(p, Currency),
      CleanRating(Get(p, Rating)),
      CleanReviewCount(Get(p, ReviewCount)),
      CleanPrice(Get(p, Price))))
  }

  /** The cleaned dictionary, fields in the order the cleaning writes them; `price` is stored
      only when the price rule produced a value. */
  function Assemble(id: Value, title: Value, url: Value, source: Value, currency: Value, rating: Value,
                    reviews: Value, price: Option<Value>): (d: Record)
    ensures Id in d && d[Id] == id && Title in d && d[Title] == title && Url in d && d[Url] == url
    ensures Source in d && d[Source] == source && Currency in d && d[Currency] == currency
    ensures Rating in d && d[Rating] == rating && ReviewCount in d && d[ReviewCount] == reviews
    ensures Price in d <==> price.Some?
    ensures Price in d ==> d[Price] == price.value
  {
    var cleaned := map[Id := id, Title := title, Url := url, Source := source, Currency := currency,
                       Rating := rating, ReviewCount := reviews];
    if price.Some? then cleaned[Price := price.value] else cleaned
  }

  /** Field by field: the id is rendered and stripped, the title stripped and cut, the URL,
      rating and review count cleaned, source and currency copied, and the price stored only
      when the price rule produces a value. */
  lemma ValidateFields(p: Record)
    requires HasId(p) && HasTitle(p)
    ensures var d := Validate(p).value;
      && Id in d && d[Id] == Text(Strip(PyStr(Get(p, Id))))
      && Title in d && d[Title] == Text(Take(Strip(Get(p, Title).s), TitleLimit))
      && Url in d && d[Url] == CleanUrl(Get(p, Url))
      && Source in d && d[Source] == Get(p, Source)
      && Currency in d && d[Currency] == Get(p, Currency)
      && Rating in d && d[Rating] == CleanRating(Get(p, Rating))
      && ReviewCount in d && d[ReviewCount] == CleanReviewCount(Get(p, ReviewCount))
      && (Price in d <==> CleanPrice(Get(p, Price)).Some?)
      && (Price in d ==> d[Price] == CleanPrice(Get(p, Price)).value)
  {
  }

  /** What a cleaned record looks like: a stripped non-empty text id, a title of 1 to 200
      characters that starts with a non-space, an http(s) URL or `None`, a non-negative price,
      `None` or no price at all, a rating in [0, 5] or `None`, a non-negative review count or
      `None`, and `source` and `currency` present. */
  predicate Clean(d: Record) {
    && Id in d && d[Id].Text? && d[Id].s != [] && Trimmed(d[Id].s)
    && Title in d && d[Title].Text? && 0 < |d[Title].s| <= TitleLimit && !IsSpace(d[Title].s[0])
    && Url in d && (d[Url].Null? || (d[Url].Text? && IsHttpUrl(d[Url].s) && Trimmed(d[Url].s)))
    && (Price in d ==> d[Price].Null? || (d[Price].Float? && d[Price].x >= 0.0))
    && Rating in d && (d[Rating].Null? || (d[Rating].Float? && 0.0 <= d[Rating].x <= 5.0))
    && ReviewCount in d && (d[ReviewCount].Null? || (d[ReviewCount].Int? && d[ReviewCount].n >= 0))
    && Source in d && Currency in d
  }

  /** Every record that passes validation comes out clean. */
  lemma ValidateClean(p: Record)
    requires Validate(p).Some?
    ensures Clean(Validate(p).value)
  {
    CleanIdOf(p);
    CleanTitleOf(p);
    CleanUrlRange(Get(p, Url));
    CleanRatingRange(Get(p, Rating));
    CleanReviewCountRange(Get(p, ReviewCount));
    CleanPriceRange(Get(p, Price));
  }

  lemma CleanIdOf(p: Record)
    requires HasId(p)
    ensures var id := Strip(PyStr(Get(p, Id))); id != [] && Trimmed(id)
  {
    StripIdempotent(PyStr(Get(p, Id)));
  }

  lemma CleanTitleOf(p: Record)
    requires HasTitle(p)
    ensures var t := Take(Strip(Get(p, Title).s), TitleLimit); 0 < |t| <= TitleLimit && !IsSpace(t[0])
  {
    var t := Strip(Get(p, Title).s);
    assert Take(t, TitleLimit)[0] == t[0];
  }

  /** A cleaned URL is `None` or a stripped http(s) address, the input's own when it was one. */
  lemma CleanUrlRange(v: Value)
    ensures var u := CleanUrl(v);
      u.Null? || (u.Text? && IsHttpUrl(u.s) && Trimmed(u.s))
    ensures CleanUrl(v).Text? <==> v.Text? && IsHttpUrl(Strip(v.s))
    ensures CleanUrl(v).Text? ==> CleanUrl(v).s == Strip(v.s)
  {
    if v.Text? {
      var u := Strip(v.s);
      if IsHttpUrl(u) {
        assert u != [] && v.s != [];
        StripIdempotent(v.s);
      }
    }
  }

  /** A cleaned rating is `None` or a number on the five-star scale, the input's own number when
      `float()` accepts it and it is on the scale. */
  lemma CleanRatingRange(v: Value)
    ensures var r := CleanRating(v); r.Null? || (r.Float? && 0.0 <= r.x <= 5.0)
    ensures CleanRating(v).Float? <==> !v.Null? && ToFloat(v).Some? && 0.0 <= ToFloat(v).value <= 5.0
    ensures CleanRating(v).Float? ==> CleanRating(v).x == ToFloat(v).value
  {
  }

  /** A cleaned review count is `None` or a non-negative integer, `int()` of the input when that
      is defined and not negative. */
  lemma CleanReviewCountRange(v: Value)
    ensures var r := CleanReviewCount(v); r.Null? || (r.Int? && r.n >= 0)
    ensures CleanReviewCount(v).Int? <==> !v.Null? && ToInt(v).Some? && ToInt(v).value >= 0
    ensures CleanReviewCount(v).Int? ==> CleanReviewCount(v).n == ToInt(v).value
  {
  }

  /** A cleaned price is `None` or a non-negative number, `float()` of the input when that is
      defined and not negative; a negative number leaves no price. */
  lemma CleanPriceRange(v: Value)
    ensures var r := CleanPrice(v); r.Some? ==> r.value.Null? || (r.value.Float? && r.value.x >= 0.0)
    ensures CleanPrice(v).None? <==> !v.Null? && ToFloat(v).Some? && ToFloat(v).value < 0.0
    ensures CleanPrice(v) == Some(Null) <==> v.Null? || ToFloat(v).None?
    ensures !v.Null? && ToFloat(v).Some? && ToFloat(v).value >= 0.0 ==> CleanPrice(v) == Some(Float(ToFloat(v).value))
  {
  }

  /** For a price read as a number, or not read at all: `None` when none was read, the price
      itself when it is not negative, and no price when it is negative. */
  lemma CleanReadPrice(price: Option<real>)
    ensures CleanPrice(FloatOrNone(price)) ==
      if price.None? then Some(Null) else if price.value >= 0.0 then Some(Float(price.value)) else None
  {
  }

  /** Validating a cleaned record again accepts it and keeps every field, except that the title
      is stripped once more (a cut title can end in a space) and a left-out price becomes `None`. */
  lemma RevalidateClean(d: Record)
    requires Clean(d)
    ensures Validate(d).Some?
    ensures var r := Validate(d).value;
      && r[Id] == d[Id] && r[Source] == d[Source] && r[Currency] == d[Currency] && r[Url] == d[Url]
      && r[Rating] == d[Rating] && r[ReviewCount] == d[ReviewCount]
      && r[Title] == Text(Strip(d[Title].s))
      && Price in r && r[Price] == Get(d, Price)
  {
    RevalidateCopies(d);
    RevalidateTitle(d);
    RevalidateUrl(d);
    RevalidateScores(d);
    RevalidatePrice(d);
  }

  lemma RevalidateCopies(d: Record)
    requires Clean(d)
    ensures Validate(d).Some?
    ensures var r := Validate(d).value;
      && Id in r && r[Id] == d[Id]
      && Source in r && r[Source] == d[Source]
      && Currency in r && r[Currency] == d[Currency]
  {
    RevalidateAccepts(d);
  }

  lemma RevalidateAccepts(d: Record)
    requires Clean(d)
    ensures Validate(d).Some?
  {
    var id, title := d[Id].s, d[Title].s;
    StripOfTrimmed(id);
    TextIdPresence(d, id);
    TextTitlePresence(d, title);
    assert !IsSpace(title[0]);
    StripEmptyIffAllSpace(title);
  }

  lemma RevalidateTitle(d: Record)
    requires Clean(d)
    ensures Validate(d).Some? && Validate(d).value[Title] == Text(Strip(d[Title].s))
  {
    RevalidateAccepts(d);
    assert |Strip(d[Title].s)| <= |d[Title].s|;
  }

  lemma RevalidateUrl(d: Record)
    requires Clean(d)
    ensures Validate(d).Some? && Validate(d).value[Url] == d[Url]
  {
    RevalidateAccepts(d);
    CleanUrlOfClean(d[Url]);
  }

  lemma RevalidateScores(d: Record)
    requires Clean(d)
    ensures Validate(d).Some? && Validate(d).value[Rating] == d[Rating]
    ensures Validate(d).value[ReviewCount] == d[ReviewCount]
  {
    RevalidateAccepts(d);
    CleanRatingOfClean(d[Rating]);
    CleanReviewCountOfClean(d[ReviewCount]);
  }

  lemma RevalidatePrice(d: Record)
    requires Clean(d)
    ensures Validate(d).Some? && Price in Validate(d).value && Validate(d).value[Price] == Get(d, Price)
  {
    RevalidateAccepts(d);
    CleanPriceOfClean(Get(d, Price));
  }

  lemma CleanRatingOfClean(v: Value)
    requires v.Null? || (v.Float? && 0.0 <= v.x <= 5.0)
    ensures CleanRating(v) == v
  {
  }

  lemma CleanReviewCountOfClean(v: Value)
    requires v.Null? || (v.Int? && v.n >= 0)
    ensures CleanReviewCount(v) == v
  {
  }

  lemma CleanPriceOfClean(v: Value)
    requires v.Null? || (v.Float? && v.x >= 0.0)
    ensures CleanPrice(v) == Some(v)
  {
  }

  lemma CleanUrlOfClean(v: Value)
    requires v.Null? || (v.Text? && IsHttpUrl(v.s) && Trimmed(v.s))
    ensures CleanUrl(v) == v
  {
    if v.Text? {
      HttpNonEmpty(v.s);
      StripOfTrimmed(v.s);
    }
  }

  lemma HttpNonEmpty(u: string)
    requires IsHttpUrl(u)
    ensures u != []
  {
  }

  /** A record whose id is the string `a` carries an id exactly when `a` is not blank. */
  lemma TextIdPresence(p: Record, a: string)
    requires Get(p, Id) == Text(a)
    ensures HasId(p) <==> Strip(a) != []
  {
    if a == [] {
      assert Strip(a) == [];
    }
  }

  /** A record whose title is the string `t` carries a title exactly when `t` is not blank. */
  lemma TextTitlePresence(p: Record, t: string)
    requires Get(p, Title) == Text(t)
    ensures HasTitle(p) <==> Strip(t) != []
  {
  }

  /** A title longer than the limit is cut, so validation loses its tail. */
  lemma LongTitleCut(p: Record)
    requires HasId(p) && HasTitle(p) && |Strip(Get(p, Title).s)| > TitleLimit
    ensures |Validate(p).value[Title].s| == TitleLimit
  {
  }
}
