/** The parsed page as the scrapers query it. HTML parsing and CSS selection are done by a library
    outside this model, so a page is represented by the answers to the queries the scrapers make:
    for a selector, the first matching element (`css_first`) and all matching nodes (`css`). */
module Html {
  import opened Wrappers
  import opened PyText

  /** An element found by a selector: `text()`, `text(strip=True)` and its attributes. */
  datatype Element = Element(text: string, strippedText: string, attrs: map<string, string>)

  /** A listing node: its own attributes and, per selector, the first matching descendant. */
  datatype Node = Node(attrs: map<string, string>, first: map<string, Element>)

  /** A parsed page: per selector its first match and all its matches, and the text of `<body>`. */
  datatype Document = Document(first: map<string, Element>, all: map<string, seq<Node>>, bodyText: string)

  /** `attributes.get(name)`. */
  function Attr(attrs: map<string, string>, name: string): (r: Option<string>)
    ensures r.Some? <==> name in attrs
  {
    if name in attrs then Some(attrs[name]) else None
  }

  /** `item.css_first(selector)`. */
  function CssFirst(n: Node, selector: string): (r: Option<Element>)
    ensures r.Some? <==> selector in n.first
  {
    if selector in n.first then Some(n.first[selector]) else None
  }

  /** `tree.css_first(selector)`. */
  function DocFirst(d: Document, selector: string): (r: Option<Element>)
    ensures r.Some? <==> selector in d.first
  {
    if selector in d.first then Some(d.first[selector]) else None
  }

  /** `tree.css(selector)`. */
  function DocAll(d: Document, selector: string): seq<Node> {
    if selector in d.all then d.all[selector] else []
  }

  /** A string value as an `if s:` test sees it: `None` and `""` are both absent. */
  function NonEmpty(o: Option<string>): (r: Option<string>)
    ensures r.Some? <==> o.Some? && o.value != []
    ensures r.Some? ==> r == o
  {
    if o.Some? && o.value != [] then o else None
  }

  /** `item.css_first(selector).text(strip=True)` when that is non-empty. */
  function StrippedTextOf(n: Node, selector: string): (r: Option<string>)
    ensures r.Some? <==> selector in n.first && n.first[selector].strippedText != []
  {
    match CssFirst(n, selector)
    case None => None
    case Some(e) => NonEmpty(Some(e.strippedText))
  }

  /** `item.css_first(selector).attributes.get(name)` when that is non-empty. */
  function AttrOf(n: Node, selector: string, name: string): (r: Option<string>)
    ensures r.Some? <==> selector in n.first && name in n.first[selector].attrs && n.first[selector].attrs[name] != []
  {
    match CssFirst(n, selector)
    case None => None
    case Some(e) => NonEmpty(Attr(e.attrs, name))
  }

  /** An ordered chain of alternatives, as a selector loop that stops at its first success: the
      result of the first alternative that gives one. */
  function FirstSome<A, B>(xs: seq<A>, f: A -> Option<B>): Option<B> {
    if xs == [] then None
    else if f(xs[0]).Some? then f(xs[0])
    else FirstSome(xs[1..], f)
  }

  /** The chain gives nothing exactly when every alternative gives nothing, and what it gives
      is what one of the alternatives gives. */
  lemma {:induction false} FirstSomeSpec<A, B>(xs: seq<A>, f: A -> Option<B>)
    ensures FirstSome(xs, f).None? <==> forall i :: 0 <= i < |xs| ==> f(xs[i]).None?
    ensures FirstSome(xs, f).Some? ==> exists i :: 0 <= i < |xs| && f(xs[i]) == FirstSome(xs, f)
  {
    if xs != [] {
      FirstSomeSpec(xs[1..], f);
      if f(xs[0]).None? && FirstSome(xs, f).Some? {
        var i :| 0 <= i < |xs| - 1 && f(xs[1..][i]) == FirstSome(xs, f);
        assert f(xs[i + 1]) == FirstSome(xs, f);
      }
      if f(xs[0]).None? && FirstSome(xs, f).None? {
        forall i | 0 <= i < |xs| ensures f(xs[i]).None? {
          if i > 0 { assert xs[i] == xs[1..][i - 1]; }
        }
      }
    }
  }

  /** The chain's result is that of the first alternative that succeeds; the ones after it play
      no part. */
  lemma {:induction false} FirstSomeAt<A, B>(xs: seq<A>, f: A -> Option<B>, i: nat)
    requires i < |xs| && f(xs[i]).Some?
    requires forall j :: 0 <= j < i ==> f(xs[j]).None?
    ensures FirstSome(xs, f) == f(xs[i])
    decreases i
  {
    if i > 0 {
      assert xs[1..][i - 1] == xs[i];
      FirstSomeAt(xs[1..], f, i - 1);
    }
  }

  /** Only the alternatives up to the first success matter: appending more changes nothing
      once the chain has a result. */
  lemma {:induction false} FirstSomeAppend<A, B>(xs: seq<A>, ys: seq<A>, f: A -> Option<B>)
    ensures FirstSome(xs + ys, f) == if FirstSome(xs, f).Some? then FirstSome(xs, f) else FirstSome(ys, f)
    decreases |xs|
  {
    if xs == [] {
      assert xs + ys == ys;
    } else {
      assert (xs + ys)[0] == xs[0] && (xs + ys)[1..] == xs[1..] + ys;
      FirstSomeAppend(xs[1..], ys, f);
    }
  }

  /** The selector loop itself: try the alternatives in order and stop at the first success. */
  method TryInOrder<A, B>(xs: seq<A>, f: A -> Option<B>) returns (r: Option<B>)
    ensures r == FirstSome(xs, f)
  {
    r := None;
    var i := 0;
    while i < |xs|
      invariant 0 <= i <= |xs|
      invariant r.None? && FirstSome(xs[..i], f).None?
    {
      r := f(xs[i]);
      if r.Some? {
        break;
      }
      assert xs[..i + 1] == xs[..i] + [xs[i]];
      FirstSomeAppend(xs[..i], [xs[i]], f);
      i := i + 1;
    }
    assert xs == xs[..i] + xs[i..];
    FirstSomeAppend(xs[..i], xs[i..], f);
    if r.Some? {
      assert xs[i..] == [xs[i]] + xs[i + 1..];
      FirstSomeAppend([xs[i]], xs[i + 1..], f);
    }
  }

  /** `next((tree.css(s) for s in selectors if tree.css(s)), [])`: the matches of the first
      selector that matches anything. */
  function FirstMatches(d: Document, selectors: seq<string>): seq<Node> {
    var found := FirstSome(selectors, Matching(d));
    if found.Some? then found.value else []
  }

  /** A selector's matches when it matches anything. */
  function Matching(d: Document): string -> Option<seq<Node>> {
    s => if DocAll(d, s) != [] then Some(DocAll(d, s)) else None
  }

  /** Nothing is found exactly when no selector matches anything. */
  lemma FirstMatchesEmpty(d: Document, selectors: seq<string>)
    ensures FirstMatches(d, selectors) == [] <==> forall i :: 0 <= i < |selectors| ==> DocAll(d, selectors[i]) == []
  {
    FirstSomeSpec(selectors, Matching(d));
    var found := FirstSome(selectors, Matching(d));
    if found.Some? {
      var i :| 0 <= i < |selectors| && Matching(d)(selectors[i]) == found;
      assert DocAll(d, selectors[i]) != [];
    }
  }
}
