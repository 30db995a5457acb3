/** `main.py`: the user's answers, the platforms they select, the scrapers run one after the other
    with each scraper's exception kept to itself, and `smart_deduplicate` over everything they
    found. The scrapers' searches are a parameter: `search(platform, query, pages)` is what that
    platform's `search_products` gives (its records, or an exception). */
module MainScript {
  import opened Wrappers
  import opened PyValue
  import opened Products

  // ---------------------------------------------------------------------------------------------
  // get_user_input

  /** Pages per platform never exceed this many. */
  const MaxPages := 10

  /** `min(pages, 10)`. */
  function PageCap(pages: int): (r: int)
    ensures r <= MaxPages && r <= pages
    ensures r == pages || r == MaxPages
  {
    if pages <= MaxPages then pages else MaxPages
  }

  /** The answers `get_user_input` returns: the platform choice, the query and the capped page
      count. */
  datatype UserInput = UserInput(choice: string, query: string, pages: int)

  /** `get_user_input` once the prompts have been answered with `choice`, `query` and `pages`. */
  function GetUserInput(choice: string, query: string, pages: int): (u: UserInput)
    ensures u.choice == choice && u.query == query
    ensures u.pages <= MaxPages && (pages <= MaxPages ==> u.pages == pages) && (pages > MaxPages ==> u.pages == MaxPages)
  {
    UserInput(choice, query, PageCap(pages))
  }

  // ---------------------------------------------------------------------------------------------
  // Platform selection

  datatype Platform = Amazon | MercadoLibre

  /** The scrapers `main_logic` lines up for a choice: Amazon when the choice is "1" or "3",
      then MercadoLibre when it is "2" or "3". */
  function Selected(choice: string): seq<Platform> {
    (if choice in ["1", "3"] then [Amazon] else []) + (if choice in ["2", "3"] then [MercadoLibre] else [])
  }

  /** "1" selects Amazon alone, "2" MercadoLibre alone, "3" both with Amazon first, and any
      other answer (which the prompt does not accept) none. */
  lemma SelectedCases(choice: string)
    ensures choice == "1" ==> Selected(choice) == [Amazon]
    ensures choice == "2" ==> Selected(choice) == [MercadoLibre]
    ensures choice == "3" ==> Selected(choice) == [Amazon, MercadoLibre]
    ensures choice != "1" && choice != "2" && choice != "3" ==> Selected(choice) == []
  {
  }

  // ---------------------------------------------------------------------------------------------
  // Running the scrapers

  /** What one scraper adds to `all_products`: its records when it returns, nothing when it
      raises. */
  function Contribution(o: Outcome<seq<Record>>): seq<Record> {
    if o.Returned? then o.value else []
  }

  /** The records the scrapers of `platforms` add, in platform order. */
  function Gather(platforms: seq<Platform>, search: (Platform, string, int) -> Outcome<seq<Record>>,
                  query: string, pages: int): (all: seq<Record>)
    ensures platforms == [] ==> all == []
  {
    if platforms == [] then []
    else Gather(platforms[..|platforms| - 1], search, query, pages) + Contribution(search(platforms[|platforms| - 1], query, pages))
  }

  /** A record is gathered exactly when some scraper returned it. */
  lemma {:induction false} GatherMembers(platforms: seq<Platform>, search: (Platform, string, int) -> Outcome<seq<Record>>,
                                         query: string, pages: int)
    ensures forall p :: p in Gather(platforms, search, query, pages) <==>
      exists i :: 0 <= i < |platforms| && search(platforms[i], query, pages).Returned? &&
        p in search(platforms[i], query, pages).value
    decreases |platforms|
  {
    if platforms != [] {
      var init, last := platforms[..|platforms| - 1], platforms[|platforms| - 1];
      GatherMembers(init, search, query, pages);
      var c := Contribution(search(last, query, pages));
      assert Gather(platforms, search, query, pages) == Gather(init, search, query, pages) + c;
      forall p ensures p in Gather(platforms, search, query, pages) <==>
        exists i :: 0 <= i < |platforms| && search(platforms[i], query, pages).Returned? &&
          p in search(platforms[i], query, pages).value
      {
        if p in Gather(init, search, query, pages) {
          var i :| 0 <= i < |init| && search(init[i], query, pages).Returned? && p in search(init[i], query, pages).value;
          assert platforms[i] == init[i];
        } else if p in c {
          assert platforms[|platforms| - 1] == last;
        }
        if (exists i :: 0 <= i < |platforms| && search(platforms[i], query, pages).Returned? &&
                        p in search(platforms[i], query, pages).value) {
          var i :| 0 <= i < |platforms| && search(platforms[i], query, pages).Returned? &&
            p in search(platforms[i], query, pages).value;
          if i < |init| {
            assert init[i] == platforms[i];
          }
        }
      }
    }
  }

  /** A scraper that raises is as if it had not been selected: what the others add, before and
      after it, is unchanged. */
  lemma {:induction false} GatherSkipsRaised(platforms: seq<Platform>, search: (Platform, string, int) -> Outcome<seq<Record>>,
                                             query: string, pages: int, k: nat)
    requires k < |platforms| && search(platforms[k], query, pages).Raised?
    ensures Gather(platforms, search, query, pages) == Gather(platforms[..k] + platforms[k + 1..], search, query, pages)
    decreases |platforms|
  {
    var init := platforms[..|platforms| - 1];
    var rest := platforms[..k] + platforms[k + 1..];
    if k == |platforms| - 1 {
      assert rest == init;
    } else {
      GatherSkipsRaised(init, search, query, pages, k);
      assert rest == (init[..k] + init[k + 1..]) + [platforms[|platforms| - 1]];
      assert rest[..|rest| - 1] == init[..k] + init[k + 1..];
    }
  }

  /** Gathering one more scraper's records appends them. */
  lemma GatherAppend(platforms: seq<Platform>, p: Platform, search: (Platform, string, int) -> Outcome<seq<Record>>,
                     query: string, pages: int)
    ensures Gather(platforms + [p], search, query, pages) ==
      Gather(platforms, search, query, pages) + Contribution(search(p, query, pages))
  {
    assert (platforms + [p])[..|platforms|] == platforms;
  }

  // ---------------------------------------------------------------------------------------------
  // smart_deduplicate

  /** The dictionary key a product's `get("id")` gives. */
  function IdKey(p: Record): Value {
    KeyOf(Get(p, Id))
  }

  function KeysOf(ps: seq<Record>): (ks: seq<Value>)
    ensures |ks| == |ps|
    ensures forall i :: 0 <= i < |ps| ==> ks[i] == IdKey(ps[i])
  {
    seq(|ps|, i requires 0 <= i < |ps| => IdKey(ps[i]))
  }

  /** What `smart_deduplicate` keeps: a product is kept when its id is truthy and no product
      kept before it has that id. */
  function FirstById(ps: seq<Record>): seq<Record> {
    if ps == [] then []
    else
      var kept := FirstById(ps[..|ps| - 1]);
      var p := ps[|ps| - 1];
      if Truthy(Get(p, Id)) && IdKey(p) !in KeysOf(kept) then kept + [p] else kept
  }

  /** Numerically equal keys are both truthy or both falsy. */
  lemma TruthyKey(v: Value)
    ensures Truthy(KeyOf(v)) == Truthy(v)
  {
    if v.Float? && v.x == v.x.Floor as real {
      assert v.x != 0.0 <==> v.x.Floor != 0;
    }
  }

  lemma KeysOfAppend(ps: seq<Record>, p: Record)
    ensures KeysOf(ps + [p]) == KeysOf(ps) + [IdKey(p)]
  {
  }

  /** No truthy id of the input is lost, and every kept product has a truthy id. */
  lemma {:induction false} FirstByIdComplete(ps: seq<Record>)
    ensures var r := FirstById(ps);
      forall j :: 0 <= j < |ps| && Truthy(Get(ps[j], Id)) ==> IdKey(ps[j]) in KeysOf(r)
    ensures var r := FirstById(ps);
      forall i :: 0 <= i < |r| ==> Truthy(Get(r[i], Id))
    decreases |ps|
  {
    if ps != [] {
      var init, p := ps[..|ps| - 1], ps[|ps| - 1];
      FirstByIdComplete(init);
      var r0, r := FirstById(init), FirstById(ps);
      if Truthy(Get(p, Id)) && IdKey(p) !in KeysOf(r0) {
        KeysOfAppend(r0, p);
      }
      forall j | 0 <= j < |ps| && Truthy(Get(ps[j], Id)) ensures IdKey(ps[j]) in KeysOf(r) {
        if j < |init| {
          assert ps[j] == init[j];
          assert IdKey(init[j]) in KeysOf(r0);
        }
      }
    }
  }

  /** A truthy id that no kept product carries occurs nowhere in the input. */
  lemma FirstByIdNewKey(ps: seq<Record>, p: Record)
    requires Truthy(Get(p, Id)) && IdKey(p) !in KeysOf(FirstById(ps))
    ensures IdKey(p) !in KeysOf(ps)
  {
    FirstByIdComplete(ps);
    if IdKey(p) in KeysOf(ps) {
      var j :| 0 <= j < |ps| && KeysOf(ps)[j] == IdKey(p);
      TruthyKey(Get(ps[j], Id));
      TruthyKey(Get(p, Id));
    }
  }

  /** Each of `r` is the first product of `ps` with its id, and their ids occur in `ps` in the
      order of `r`. */
  ghost predicate KeptFirst(ps: seq<Record>, r: seq<Record>) {
    var ks := KeysOf(ps);
    (forall i :: 0 <= i < |r| ==> IdKey(r[i]) in ks && r[i] == ps[First(ks, IdKey(r[i]))]) &&
    (forall i, j :: 0 <= i < j < |r| ==> IdKey(r[i]) in ks && IdKey(r[j]) in ks && First(ks, IdKey(r[i])) < First(ks, IdKey(r[j])))
  }

  /** Each kept product is the first in the input with its id, and the kept ids appear in the
      order in which they first occur in the input. */
  lemma {:induction false} FirstByIdFirst(ps: seq<Record>)
    ensures KeptFirst(ps, FirstById(ps))
    decreases |ps|
  {
    if ps != [] {
      var init, p := ps[..|ps| - 1], ps[|ps| - 1];
      FirstByIdFirst(init);
      assert ps == init + [p];
      FirstByIdFirstStep(init, p);
    }
  }

  lemma FirstByIdFirstStep(init: seq<Record>, p: Record)
    requires KeptFirst(init, FirstById(init))
    ensures KeptFirst(init + [p], FirstById(init + [p]))
  {
    var ps := init + [p];
    assert ps[..|init|] == init;
    var r0 := FirstById(init);
    if Truthy(Get(p, Id)) && IdKey(p) !in KeysOf(r0) {
      assert FirstById(ps) == r0 + [p];
      FirstByIdNewKey(init, p);
      KeptFirstAdd(init, p, r0);
    } else {
      assert FirstById(ps) == r0;
      KeptFirstGrow(init, p, r0);
    }
  }

  /** Appending a product to the input keeps every earlier product's first position. */
  lemma KeptFirstGrow(init: seq<Record>, p: Record, r0: seq<Record>)
    requires KeptFirst(init, r0)
    ensures KeptFirst(init + [p], r0)
    ensures forall i :: 0 <= i < |r0| ==> IdKey(r0[i]) in KeysOf(init + [p]) && First(KeysOf(init + [p]), IdKey(r0[i])) < |init|
  {
    var ps := init + [p];
    var ks0, ks := KeysOf(init), KeysOf(ps);
    KeysOfAppend(init, p);
    forall x | x in ks0 ensures x in ks && First(ks, x) == First(ks0, x) {
      FirstAppend(ks0, IdKey(p), x);
    }
    forall i | 0 <= i < |r0|
      ensures IdKey(r0[i]) in ks && r0[i] == ps[First(ks, IdKey(r0[i]))] && First(ks, IdKey(r0[i])) < |init|
    {
      var x := r0[i];
      assert IdKey(x) in ks0 && x == init[First(ks0, IdKey(x))];
    }
  }

  /** A product whose id is new to the input is first with its id, after all earlier ones. */
  lemma KeptFirstAdd(init: seq<Record>, p: Record, r0: seq<Record>)
    requires KeptFirst(init, r0) && IdKey(p) !in KeysOf(init)
    ensures KeptFirst(init + [p], r0 + [p])
  {
    var ps, r := init + [p], r0 + [p];
    var ks := KeysOf(ps);
    KeptFirstGrow(init, p, r0);
    KeysOfAppend(init, p);
    FirstUnique(ks, IdKey(p), |init|);
    forall i | 0 <= i < |r| ensures IdKey(r[i]) in ks && r[i] == ps[First(ks, IdKey(r[i]))] {
      if i < |r0| {
        assert r[i] == r0[i];
      }
    }
    forall i, j | 0 <= i < j < |r| ensures IdKey(r[i]) in ks && IdKey(r[j]) in ks && First(ks, IdKey(r[i])) < First(ks, IdKey(r[j])) {
      assert r[i] == r0[i];
      if j < |r0| {
        assert r[j] == r0[j];
      }
    }
  }

  /** `smart_deduplicate` keeps, in the order the ids first appear, the first product carrying
      each truthy id, and drops every product whose id is missing or falsy: the kept ids are
      truthy and pairwise different, each kept product is the input's first with its id, and no
      truthy id of the input is lost. */
  lemma FirstByIdSpec(ps: seq<Record>)
    ensures var r, ks := FirstById(ps), KeysOf(ps);
      forall i :: 0 <= i < |r| ==> Truthy(Get(r[i], Id)) && IdKey(r[i]) in ks && r[i] == ps[First(ks, IdKey(r[i]))]
    ensures var r, ks := FirstById(ps), KeysOf(ps);
      forall i, j :: 0 <= i < j < |r| ==> IdKey(r[i]) in ks && IdKey(r[j]) in ks && First(ks, IdKey(r[i])) < First(ks, IdKey(r[j]))
    ensures var r := FirstById(ps);
      forall i, j :: 0 <= i < j < |r| ==> IdKey(r[i]) != IdKey(r[j])
    ensures var r := FirstById(ps);
      forall j :: 0 <= j < |ps| && Truthy(Get(ps[j], Id)) ==> IdKey(ps[j]) in KeysOf(r)
  {
    FirstByIdComplete(ps);
    FirstByIdFirst(ps);
  }

  /** Where a product's id repeats a truthy id, `smart_deduplicate` keeps the first product and
      the scrapers' own de-duplication the last. */
  lemma FirstWinsLastWins(p: Record, q: Record)
    requires Id in p && Id in q && Truthy(p[Id]) && KeyOf(p[Id]) == KeyOf(q[Id])
    ensures FirstById([p, q]) == [p]
    ensures DeduplicateById([p, q]) == [q]
  {
    assert [p, q][..1] == [p];
    assert [p][..0] == [];
    assert FirstById([p]) == [p];
    assert KeysOf([p])[0] == IdKey(q);
    LastWins(p, q);
  }

  lemma LastWins(p: Record, q: Record)
    requires Id in p && Id in q && KeyOf(p[Id]) == KeyOf(q[Id])
    ensures DeduplicateById([p, q]) == [q]
  {
    var k := KeyOf(p[Id]);
    assert [p, q][..1] == [p] && [p][..0] == [];
    assert IndexById([p]) == [(k, p)];
    assert EntryKeys([(k, p)]) == [k];
    FirstUnique([k], k, 0);
    assert IndexById([p, q]) == [(k, q)];
  }

  /** `list(unique_products.values())`. */
  function EntryValues(d: Index): (vs: seq<Record>)
    ensures |vs| == |d|
    ensures forall i :: 0 <= i < |d| ==> vs[i] == d[i].1
  {
    seq(|d|, i requires 0 <= i < |d| => d[i].1)
  }

  /** `smart_deduplicate(products)`: one pass, adding a product under its id when the id is
      truthy and not yet in the dictionary. */
  method SmartDeduplicate(products: seq<Record>) returns (result: seq<Record>)
    ensures result == FirstById(products)
  {
    var unique: Index := [];
    for i := 0 to |products|
      invariant EntryValues(unique) == FirstById(products[..i])
      invariant EntryKeys(unique) == KeysOf(FirstById(products[..i]))
    {
      var product := products[i];
      var key := Get(product, Id);
      assert products[..i + 1] == products[..i] + [product];
      if Truthy(key) && KeyOf(key) !in EntryKeys(unique) {
        KeysOfAppend(FirstById(products[..i]), product);
        unique := Upsert(unique, KeyOf(key), product);
      }
    }
    assert products[..|products|] == products;
    result := EntryValues(unique);
  }

  // ---------------------------------------------------------------------------------------------
  // main_logic

  /** `main_logic` once the prompts have been answered: the selected scrapers run in turn, a
      scraper's exception is logged and the next one still runs, and the records found are
      de-duplicated. `ran` lists the scrapers whose search was started. */
  method MainLogic(choice: string, query: string, pages: int,
                   search: (Platform, string, int) -> Outcome<seq<Record>>)
    returns (ran: seq<Platform>, finalProducts: seq<Record>)
    ensures var input := GetUserInput(choice, query, pages);
      ran == Selected(input.choice) &&
      finalProducts == FirstById(Gather(Selected(input.choice), search, input.query, input.pages))
  {
    var input := GetUserInput(choice, query, pages);
    var scrapers := SelectScrapers(input.choice);
    var allProducts;
    ran, allProducts := RunScrapers(scrapers, search, input.query, input.pages);
    finalProducts := SmartDeduplicate(allProducts);
  }

  /** The scrapers `main_logic` builds for a choice, Amazon first. */
  method SelectScrapers(choice: string) returns (scrapers: seq<Platform>)
    ensures scrapers == Selected(choice)
  {
    scrapers := [];
    if choice in ["1", "3"] {
      scrapers := scrapers + [Amazon];
    }
    if choice in ["2", "3"] {
      scrapers := scrapers + [MercadoLibre];
    }
  }

  /** The loop over the scrapers: each one runs; what a scraper that returns finds is added,
      and one that raises adds nothing and does not stop the others. */
  method RunScrapers(scrapers: seq<Platform>, search: (Platform, string, int) -> Outcome<seq<Record>>,
                     query: string, pages: int)
    returns (ran: seq<Platform>, allProducts: seq<Record>)
    ensures ran == scrapers && allProducts == Gather(scrapers, search, query, pages)
  {
    allProducts := [];
    ran := [];
    for i := 0 to |scrapers|
      invariant ran == scrapers[..i]
      invariant allProducts == Gather(scrapers[..i], search, query, pages)
    {
      var outcome := search(scrapers[i], query, pages);
      if outcome.Returned? && outcome.value != [] {
        allProducts := allProducts + outcome.value;
      }
      assert scrapers[..i + 1] == scrapers[..i] + [scrapers[i]];
      GatherAppend(scrapers[..i], scrapers[i], search, query, pages);
      ran := ran + [scrapers[i]];
    }
    assert scrapers[..|scrapers|] == scrapers;
  }

  /** Every selected scraper runs, each with at most ten pages; the final records have truthy,
      pairwise different ids; each is the first record found with its id; and every record
      with a truthy id that a scraper returned is represented by its id, whatever the other
      scrapers raised. */
  lemma MainLogicProperties(choice: string, query: string, pages: int,
                            search: (Platform, string, int) -> Outcome<seq<Record>>)
    ensures var input := GetUserInput(choice, query, pages);
      var all := Gather(Selected(choice), search, query, input.pages);
      var r := FirstById(all);
      (forall i :: 0 <= i < |r| ==> Truthy(Get(r[i], Id)) && r[i] in all) &&
      (forall i, j :: 0 <= i < j < |r| ==> IdKey(r[i]) != IdKey(r[j])) &&
      (forall k, p :: 0 <= k < |Selected(choice)| && search(Selected(choice)[k], query, input.pages) == Returned(p) ==>
        forall x :: x in p && Truthy(Get(x, Id)) ==> IdKey(x) in KeysOf(r))
  {
    var input := GetUserInput(choice, query, pages);
    var platforms := Selected(choice);
    var all := Gather(platforms, search, query, input.pages);
    var r := FirstById(all);
    FirstByIdSpec(all);
    GatherMembers(platforms, search, query, input.pages);
    forall k, p | 0 <= k < |platforms| && search(platforms[k], query, input.pages) == Returned(p)
      ensures forall x :: x in p && Truthy(Get(x, Id)) ==> IdKey(x) in KeysOf(r)
    {
      forall x | x in p && Truthy(Get(x, Id)) ensures IdKey(x) in KeysOf(r) {
        assert x in all;
        var j :| 0 <= j < |all| && all[j] == x;
      }
    }
    forall i | 0 <= i < |r| ensures r[i] in all {
      assert r[i] == all[First(KeysOf(all), IdKey(r[i]))];
    }
  }
}
