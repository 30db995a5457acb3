/** Product records as the scrapers pass them around: Python dictionaries from field names to
    values, and the de-duplication by `id` that both scrapers apply to their page results. */
module Products {
  import opened PyValue

  /** The keys a product dictionary uses. */
  datatype Field = Id | Source | Title | Url | Price | Currency | Rating | ReviewCount

  /** The Python spelling of each key. */
  function KeyName(f: Field): string {
    match f
    case Id => "id"
    case Source => "source"
    case Title => "title"
    case Url => "url"
    case Price => "price"
    case Currency => "currency"
    case Rating => "rating"
    case ReviewCount => "review_count"
  }

  /** A product dictionary. */
  type Record = map<Field, Value>

  /** `d.get(key)`: the stored value, or `None` when the key is absent. */
  function Get(d: Record, key: Field): (v: Value)
    ensures key in d ==> v == d[key]
    ensures key !in d ==> v == Null
  {
    if key in d then d[key] else Null
  }

  /** Python dictionary keys compare numerically across `int` and `float` (`1 == 1.0`), so an
      integral float identifies the same entry as the matching int. */
  function KeyOf(v: Value): (k: Value)
    ensures !v.Float? ==> k == v
    ensures v.Float? ==> (k == Int(v.x.Floor) <==> v.x == v.x.Floor as real)
  {
    if v.Float? && v.x == v.x.Floor as real then Int(v.x.Floor) else v
  }

  predicate AllHaveId(ps: seq<Record>) {
    forall i :: 0 <= i < |ps| ==> Id in ps[i]
  }

  /** The dictionary key of each product in turn. */
  function IdKeys(ps: seq<Record>): (ks: seq<Value>)
    requires AllHaveId(ps)
    ensures |ks| == |ps|
    ensures forall i :: 0 <= i < |ps| ==> ks[i] == KeyOf(ps[i][Id])
  {
    seq(|ps|, i requires 0 <= i < |ps| => KeyOf(ps[i][Id]))
  }

  /** Position of the first occurrence of `k` in `s`. */
  function First(s: seq<Value>, k: Value): (r: nat)
    requires k in s
    ensures r < |s| && s[r] == k && k !in s[..r]
  {
    if s[0] == k then 0
    else
      var r := 1 + First(s[1..], k);
      assert s[..r] == [s[0]] + s[1..][..r - 1];
      r
  }

  /** Position of the last occurrence of `k` in `s`. */
  function Last(s: seq<Value>, k: Value): (r: nat)
    requires k in s
    ensures r < |s| && s[r] == k && k !in s[r + 1..]
  {
    if s[|s| - 1] == k then |s| - 1
    else
      assert k in s[..|s| - 1] by {
        var j :| 0 <= j < |s| && s[j] == k;
        assert s[..|s| - 1][j] == k;
      }
      var r := Last(s[..|s| - 1], k);
      assert s[r + 1..] == s[..|s| - 1][r + 1..] + [s[|s| - 1]];
      r
  }

  lemma FirstUnique(s: seq<Value>, k: Value, r: nat)
    requires r < |s| && s[r] == k && k !in s[..r]
    ensures First(s, k) == r
  {
  }

  lemma LastUnique(s: seq<Value>, k: Value, r: nat)
    requires r < |s| && s[r] == k && k !in s[r + 1..]
    ensures Last(s, k) == r
  {
  }

  /** An insertion-ordered dictionary from keys to products, as a sequence of entries. */
  type Index = seq<(Value, Record)>

  function EntryKeys(d: Index): (ks: seq<Value>)
    ensures |ks| == |d|
    ensures forall i :: 0 <= i < |d| ==> ks[i] == d[i].0
  {
    seq(|d|, i requires 0 <= i < |d| => d[i].0)
  }

  /** `d[k] = p`: an existing key keeps its position and takes the new value, a new key goes last. */
  function Upsert(d: Index, k: Value, p: Record): (r: Index)
    ensures k in EntryKeys(d) ==> r == d[First(EntryKeys(d), k) := (k, p)]
    ensures k !in EntryKeys(d) ==> r == d + [(k, p)]
  {
    var ks := EntryKeys(d);
    if k in ks then d[First(ks, k) := (k, p)] else d + [(k, p)]
  }

  /** The dictionary built by `{p[Id]: p for p in ps}`. */
  function IndexById(ps: seq<Record>): Index
    requires AllHaveId(ps)
  {
    if ps == [] then []
    else
      var last := ps[|ps| - 1];
      Upsert(IndexById(ps[..|ps| - 1]), KeyOf(last[Id]), last)
  }

  /** The distinct keys of `ks` in the order they first appear. */
  function OrderedKeys(ks: seq<Value>): (o: seq<Value>)
    ensures forall x :: x in o <==> x in ks
    ensures forall i, j :: 0 <= i < j < |o| ==> o[i] != o[j]
  {
    if ks == [] then []
    else
      var o := OrderedKeys(ks[..|ks| - 1]);
      var k := ks[|ks| - 1];
      assert ks == ks[..|ks| - 1] + [k];
      if k in o then o else o + [k]
  }

  /** Every key of `o` occurs in `ks`, and earlier keys of `o` occur earlier in `ks`. */
  predicate InFirstOrder(o: seq<Value>, ks: seq<Value>) {
    forall i, j :: 0 <= i < j < |o| ==> o[i] in ks && o[j] in ks && First(ks, o[i]) < First(ks, o[j])
  }

  /** The distinct keys are listed in order of their first occurrence. */
  lemma {:induction false} OrderedKeysByFirst(ks: seq<Value>)
    ensures InFirstOrder(OrderedKeys(ks), ks)
  {
    if ks != [] {
      var init, k := ks[..|ks| - 1], ks[|ks| - 1];
      assert ks == init + [k];
      OrderedKeysByFirst(init);
      var o0 := OrderedKeys(init);
      var o := OrderedKeys(ks);
      if k !in o0 {
        FirstUnique(ks, k, |init|);
        assert o == o0 + [k];
      } else {
        assert o == o0;
      }
      forall i, j | 0 <= i < j < |o| ensures o[i] in ks && o[j] in ks && First(ks, o[i]) < First(ks, o[j]) {
        if j < |o0| {
          assert o[i] == o0[i] && o[j] == o0[j];
          assert o0[i] in init && o0[j] in init;
          FirstAppend(init, k, o0[i]);
          FirstAppend(init, k, o0[j]);
          assert First(init, o0[i]) < First(init, o0[j]);
          assert First(ks, o[i]) < First(ks, o[j]);
        } else {
          assert o[i] == o0[i] && o0[i] in init && o[j] == k;
          FirstAppend(init, k, o0[i]);
          assert First(ks, k) == |init|;
          assert First(ks, o[i]) == First(init, o0[i]) < |init|;
          assert First(ks, o[i]) < First(ks, o[j]);
        }
        assert o[i] in ks;
        assert o[j] in ks;
      }
    }
  }

  /** Appending a key leaves the first occurrence of every earlier key where it was. */
  lemma FirstAppend(ks: seq<Value>, k: Value, x: Value)
    requires x in ks
    ensures x in ks + [k] && First(ks + [k], x) == First(ks, x)
  {
    var f := First(ks, x);
    assert (ks + [k])[..f] == ks[..f];
    FirstUnique(ks + [k], x, f);
  }

  /** Appending a key makes it its own last occurrence and moves no other key's. */
  lemma LastAppend(ks: seq<Value>, k: Value, x: Value)
    requires x in ks + [k]
    ensures x == k ==> Last(ks + [k], x) == |ks|
    ensures x != k ==> x in ks && Last(ks + [k], x) == Last(ks, x)
  {
    if x == k {
      LastUnique(ks + [k], k, |ks|);
    } else {
      assert x in ks by {
        var j :| 0 <= j < |ks + [k]| && (ks + [k])[j] == x;
        assert ks[j] == x;
      }
      var l := Last(ks, x);
      assert (ks + [k])[l + 1..] == ks[l + 1..] + [k];
      LastUnique(ks + [k], x, l);
    }
  }

  /** The dictionary holds, for each distinct id in order of first appearance, the last product
      carrying it. */
  lemma {:induction false} IndexByIdEntries(ps: seq<Record>)
    requires AllHaveId(ps)
    ensures var ks := IdKeys(ps); var o := OrderedKeys(ks);
      IndexById(ps) == seq(|o|, i requires 0 <= i < |o| => (o[i], ps[Last(ks, o[i])]))
    decreases |ps|
  {
    if ps != [] {
      var init, p := ps[..|ps| - 1], ps[|ps| - 1];
      var ks0, ks, k := IdKeys(init), IdKeys(ps), KeyOf(p[Id]);
      assert ks == ks0 + [k];
      assert ks[..|ks| - 1] == ks0;
      IndexByIdEntries(init);
      var o0 := OrderedKeys(ks0);
      var d0 := IndexById(init);
      assert EntryKeys(d0) == o0;
      var o := OrderedKeys(ks);
      var d := IndexById(ps);
      assert |d| == |o|;
      forall i | 0 <= i < |o| ensures d[i] == (o[i], ps[Last(ks, o[i])]) {
        LastAppend(ks0, k, o[i]);
        if o[i] != k {
          assert i < |o0| && d[i] == d0[i];
        } else if k in o0 {
          FirstUnique(o0, k, i);
        }
      }
    }
  }

  /** `list({p[Id]: p for p in ps}.values())`: one product per distinct id. */
  function DeduplicateById(ps: seq<Record>): (r: seq<Record>)
    requires AllHaveId(ps)
  {
    var d := IndexById(ps);
    seq(|d|, i requires 0 <= i < |d| => d[i].1)
  }

  /** The de-duplicated list holds, for each distinct id of the input in the order the ids first
      appear, the product that carried it last. */
  lemma DeduplicateByIdSpec(ps: seq<Record>)
    requires AllHaveId(ps)
    ensures var ks := IdKeys(ps); var o := OrderedKeys(ks);
      DeduplicateById(ps) == seq(|o|, i requires 0 <= i < |o| => ps[Last(ks, o[i])])
  {
    IndexByIdEntries(ps);
  }

  /** Hence: ids pairwise different, every input id kept, each by its last product, in order of
      first appearance. */
  lemma DeduplicateByIdProperties(ps: seq<Record>)
    requires AllHaveId(ps)
    ensures AllHaveId(DeduplicateById(ps))
    ensures var r := DeduplicateById(ps);
      forall i, j :: 0 <= i < j < |r| ==> KeyOf(r[i][Id]) != KeyOf(r[j][Id])
    ensures forall j :: 0 <= j < |ps| ==> IdKeys(ps)[j] in IdKeys(DeduplicateById(ps))
    ensures var r, ks := DeduplicateById(ps), IdKeys(ps);
      forall i :: 0 <= i < |r| ==> KeyOf(r[i][Id]) in ks && r[i] == ps[Last(ks, KeyOf(r[i][Id]))]
    ensures var r, ks := DeduplicateById(ps), IdKeys(ps);
      forall i, j :: 0 <= i < j < |r| ==>
        KeyOf(r[i][Id]) in ks && KeyOf(r[j][Id]) in ks &&
        First(ks, KeyOf(r[i][Id])) < First(ks, KeyOf(r[j][Id]))
  {
    var ks := IdKeys(ps);
    var o := OrderedKeys(ks);
    DeduplicateByIdSpec(ps);
    OrderedKeysByFirst(ks);
    var r := DeduplicateById(ps);
    assert IdKeys(r) == o;
  }

  /** Without repeated ids nothing is dropped and the order is kept. */
  lemma {:induction false} DeduplicateDistinct(ps: seq<Record>)
    requires AllHaveId(ps)
    requires forall i, j :: 0 <= i < j < |ps| ==> KeyOf(ps[i][Id]) != KeyOf(ps[j][Id])
    ensures DeduplicateById(ps) == ps
  {
    var ks := IdKeys(ps);
    DistinctOrderedKeys(ks);
    DeduplicateByIdSpec(ps);
    forall i | 0 <= i < |ps| ensures Last(ks, ks[i]) == i {
      LastUnique(ks, ks[i], i);
    }
  }

  lemma {:induction false} DistinctOrderedKeys(ks: seq<Value>)
    requires forall i, j :: 0 <= i < j < |ks| ==> ks[i] != ks[j]
    ensures OrderedKeys(ks) == ks
  {
    if ks != [] {
      var init := ks[..|ks| - 1];
      DistinctOrderedKeys(init);
      assert ks[|ks| - 1] !in init;
      assert ks == init + [ks[|ks| - 1]];
    }
  }
}
