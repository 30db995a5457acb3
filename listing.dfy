/** What both scrapers do with the items of a results page: each item is turned into a record or
    skipped (`if product: products.append(product)`), and the records keep the items' order. */
module Listing {
  import opened Wrappers
  import opened PyValue
  import opened Products
  import opened Validation
  import opened Html

  /** The records the items yield under `info`, in item order, skipping the items that yield
      none. */
  function Collect(items: seq<Node>, info: Node -> Option<Record>): (ps: seq<Record>)
    ensures |ps| <= |items|
  {
    if items == [] then []
    else
      var last := info(items[|items| - 1]);
      Collect(items[..|items| - 1], info) + (if last.Some? then [last.value] else [])
  }

  /** One more item adds what it yields at the end. */
  lemma CollectStep(items: seq<Node>, info: Node -> Option<Record>, i: nat, r: Option<Record>)
    requires i < |items| && info(items[i]) == r
    ensures Collect(items[..i + 1], info) == Collect(items[..i], info) + (if r.Some? then [r.value] else [])
  {
    assert items[..i + 1][..i] == items[..i];
  }

  /** The records are exactly what the items yield: each comes from an item, and every item
      that yields a record contributes it. */
  lemma {:induction false} CollectSpec(items: seq<Node>, info: Node -> Option<Record>)
    ensures forall p :: p in Collect(items, info) <==> exists i :: 0 <= i < |items| && info(items[i]) == Some(p)
    decreases |items|
  {
    if items != [] {
      var init, item := items[..|items| - 1], items[|items| - 1];
      CollectSpec(init, info);
      var tail := if info(item).Some? then [info(item).value] else [];
      assert Collect(items, info) == Collect(init, info) + tail;
      forall p ensures p in Collect(items, info) <==> exists i :: 0 <= i < |items| && info(items[i]) == Some(p) {
        if p in Collect(init, info) {
          var i :| 0 <= i < |init| && info(init[i]) == Some(p);
          assert items[i] == init[i];
        } else if p in tail {
          assert info(items[|items| - 1]) == Some(p);
        }
        if exists i :: 0 <= i < |items| && info(items[i]) == Some(p) {
          var i :| 0 <= i < |items| && info(items[i]) == Some(p);
          if i < |init| {
            assert info(init[i]) == Some(p);
          }
        }
      }
    }
  }

  /** Every record `info` yields is clean and carries source `source`. */
  ghost predicate YieldsClean(info: Node -> Option<Record>, source: string) {
    forall n :: info(n).Some? ==> Clean(info(n).value) && info(n).value[Source] == Text(source)
  }

  /** Then so is every record collected from a page, and each carries an id. */
  lemma CollectClean(items: seq<Node>, info: Node -> Option<Record>, source: string)
    requires YieldsClean(info, source)
    ensures forall p :: p in Collect(items, info) ==> Clean(p) && p[Source] == Text(source)
    ensures AllHaveId(Collect(items, info))
  {
    CollectSpec(items, info);
    var ps := Collect(items, info);
    forall i | 0 <= i < |ps| ensures Id in ps[i] {
      assert ps[i] in ps;
    }
  }
}
