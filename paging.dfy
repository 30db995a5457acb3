/** The page loop both scrapers' `search_products` share: page after page from 1 to `max_pages`,
    each page's records (from the strategy funnel) appended in page order, the loop stopped early
    when the first page has none, and an exception raised by a funnel leaving the search. The
    funnel is a parameter: `step(s, page)` is what it does for `page` from state `s` (the cache
    and whatever else it changes). */
module Paging {
  import opened Products

  /** What one funnel run gives: its records, or an exception; either way the state after it.
      Neither funnel returns `None`, so the "critical failure" exit of the loop never happens. */
  datatype Step<S> = Found(products: seq<Record>, state: S) | Failed(state: S)

  /** The records of the pages visited from some page on, how many pages were visited, whether
      a funnel raised, and the state after. */
  datatype SearchRun<S> = SearchRun(products: seq<Record>, visited: nat, raised: bool, state: S)

  /** `for page_num in range(page, max_pages + 1)` with the funnel and the early exit. */
  function Pages<S>(step: (S, int) -> Step<S>, s: S, page: int, maxPages: int): SearchRun<S>
    decreases if page > maxPages then 0 else maxPages - page + 1
  {
    if page > maxPages then SearchRun([], 0, false, s)
    else match step(s, page)
      case Failed(t) => SearchRun([], 1, true, t)
      case Found(ps, t) =>
        if ps == [] && page == 1 then SearchRun([], 1, false, t)
        else
          var rest := Pages(step, t, page + 1, maxPages);
          SearchRun(ps + rest.products, rest.visited + 1, rest.raised, rest.state)
  }

  /** The funnel never raises. */
  ghost predicate NeverFails<S(!new)>(step: (S, int) -> Step<S>) {
    forall s, page :: step(s, page).Found?
  }

  /** Every record the funnel finds carries an id. */
  ghost predicate FoundHaveIds<S(!new)>(step: (S, int) -> Step<S>) {
    forall s, page :: step(s, page).Found? ==> AllHaveId(step(s, page).products)
  }

  /** With a funnel that never raises, every page from 1 to `maxPages` is visited unless the
      first page has no records, in which case only that one is, and the search does not raise. */
  lemma PagesVisited<S(!new)>(step: (S, int) -> Step<S>, s: S, maxPages: int)
    requires NeverFails(step)
    ensures var r := Pages(step, s, 1, maxPages);
      !r.raised &&
      r.visited == if maxPages < 1 then 0 else if step(s, 1).products == [] then 1 else maxPages
  {
    if maxPages >= 1 && step(s, 1).products != [] {
      LaterPagesVisited(step, step(s, 1).state, 2, maxPages);
    }
  }

  lemma {:induction false} LaterPagesVisited<S(!new)>(step: (S, int) -> Step<S>, s: S, page: int, maxPages: int)
    requires NeverFails(step) && page >= 2
    ensures var r := Pages(step, s, page, maxPages);
      !r.raised && r.visited == if page > maxPages then 0 else maxPages - page + 1
    decreases if page > maxPages then 0 else maxPages - page + 1
  {
    if page <= maxPages {
      assert step(s, page).Found?;
      LaterPagesVisited(step, step(s, page).state, page + 1, maxPages);
    }
  }

  /** A search that does not raise collects only records the funnel found, so they all carry
      an id when the funnel's do. */
  lemma {:induction false} PagesHaveIds<S(!new)>(step: (S, int) -> Step<S>, s: S, page: int, maxPages: int)
    requires FoundHaveIds(step)
    ensures AllHaveId(Pages(step, s, page, maxPages).products)
    decreases if page > maxPages then 0 else maxPages - page + 1
  {
    if page <= maxPages && step(s, page).Found? {
      var ps, t := step(s, page).products, step(s, page).state;
      if !(ps == [] && page == 1) {
        PagesHaveIds(step, t, page + 1, maxPages);
        var rest := Pages(step, t, page + 1, maxPages).products;
        forall i | 0 <= i < |ps + rest| ensures Id in (ps + rest)[i] {
          if i < |ps| { assert (ps + rest)[i] == ps[i]; } else { assert (ps + rest)[i] == rest[i - |ps|]; }
        }
      }
    }
  }

  /** One page of the loop: a funnel that raises ends the search, raising; an empty first page
      ends it quietly; any other page's records come before those of the pages after it. */
  lemma PagesFailed<S>(step: (S, int) -> Step<S>, s: S, page: int, maxPages: int, t: S)
    requires page <= maxPages && step(s, page) == Failed(t)
    ensures Pages(step, s, page, maxPages) == SearchRun([], 1, true, t)
  {
  }

  lemma PagesEmptyFirst<S>(step: (S, int) -> Step<S>, s: S, maxPages: int, t: S)
    requires 1 <= maxPages && step(s, 1) == Found([], t)
    ensures Pages(step, s, 1, maxPages) == SearchRun([], 1, false, t)
  {
  }

  lemma PagesNext<S>(step: (S, int) -> Step<S>, s: S, page: int, maxPages: int, ps: seq<Record>, t: S)
    requires page <= maxPages && step(s, page) == Found(ps, t) && !(ps == [] && page == 1)
    ensures var r, rest := Pages(step, s, page, maxPages), Pages(step, t, page + 1, maxPages);
      r.products == ps + rest.products && r.state == rest.state && r.raised == rest.raised
  {
  }
}
