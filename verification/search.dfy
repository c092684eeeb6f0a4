/** `DataManager.searchProducts` and `DataManager.sortProducts`. */
module Search {
  import opened Seqs
  import opened Catalog
  import opened Text
  import opened Stats

  /** The text test: the lower-cased name or description contains the lower-cased query. */
  predicate MatchesQuery(p: Product, query: string) {
    Contains(Lower(p.name), Lower(query)) || Contains(Lower(p.description), Lower(query))
  }

  /** The stock-level buckets; any other level lets every product through. */
  predicate InLevel(p: Product, level: string) {
    if level == "low" then IsLowStock(p)
    else if level == "medium" then p.stock > p.minStock && p.stock <= p.minStock * 2
    else if level == "high" then p.stock > p.minStock * 2
    else true
  }

  /**
    * `searchProducts(query, category, stockLevel)`: the text, category and level
    * filters applied one after the other; an empty argument skips its filter.
    */
  function SearchProducts(ps: seq<Product>, query: string, category: string, level: string): (r: seq<Product>)
    ensures IsSubseq(r, ps)
    ensures forall p :: p in r <==>
      && p in ps
      && (query == "" || MatchesQuery(p, query))
      && (category == "" || p.category == category)
      && InLevel(p, level)
  {
    var byText := if query != "" then Filter(ps, (p: Product) => MatchesQuery(p, query)) else ps;
    var byCategory := if category != "" then Filter(byText, (p: Product) => p.category == category) else byText;
    var r := if level in ["low", "medium", "high"] then Filter(byCategory, (p: Product) => InLevel(p, level)) else byCategory;
    SubseqRefl(ps);
    SubseqRefl(byText);
    SubseqRefl(byCategory);
    SubseqTrans(byCategory, byText, ps);
    SubseqTrans(r, byCategory, ps);
    r
  }

  /** With a non-negative threshold a product sits in exactly one of the three buckets. */
  lemma LevelExactlyOne(p: Product)
    requires p.minStock >= 0
    ensures InLevel(p, "low") || InLevel(p, "medium") || InLevel(p, "high")
    ensures !(InLevel(p, "low") && InLevel(p, "medium"))
    ensures !(InLevel(p, "low") && InLevel(p, "high"))
    ensures !(InLevel(p, "medium") && InLevel(p, "high"))
  {
  }

  /** A negative threshold lets a product be both `low` and `high`. */
  lemma LevelsOverlapBelowZero()
    ensures var p := Product(1, "", "", 0, -3, -2, "", "", "", "", "");
      InLevel(p, "low") && InLevel(p, "high")
  {
  }

  /**
    * For non-negative thresholds the `low`, `medium` and `high` searches partition
    * the search without a level: their sizes add up to its size.
    */
  lemma SearchBucketsPartition(ps: seq<Product>, query: string, category: string)
    requires forall i :: 0 <= i < |ps| ==> ps[i].minStock >= 0
    ensures |SearchProducts(ps, query, category, "low")|
          + |SearchProducts(ps, query, category, "medium")|
          + |SearchProducts(ps, query, category, "high")|
         == |SearchProducts(ps, query, category, "")|
  {
    var all := SearchProducts(ps, query, category, "");
    var low := (p: Product) => InLevel(p, "low");
    var medium := (p: Product) => InLevel(p, "medium");
    var high := (p: Product) => InLevel(p, "high");
    assert SearchProducts(ps, query, category, "low") == Filter(all, low);
    assert SearchProducts(ps, query, category, "medium") == Filter(all, medium);
    assert SearchProducts(ps, query, category, "high") == Filter(all, high);
    forall i | 0 <= i < |all|
      ensures low(all[i]) || medium(all[i]) || high(all[i])
      ensures !(low(all[i]) && medium(all[i])) && !(low(all[i]) && high(all[i])) && !(medium(all[i]) && high(all[i]))
    {
      assert all[i] in all;
      LevelExactlyOne(all[i]);
    }
    FilterPartition(all, low, medium, high);
  }

  /** An unrecognised level behaves like no level. */
  lemma UnknownLevelPassesAll(ps: seq<Product>, query: string, category: string, level: string)
    requires level !in ["low", "medium", "high"]
    ensures SearchProducts(ps, query, category, level) == SearchProducts(ps, query, category, "")
  {
  }

  /** `s` is in non-decreasing order of `key`. */
  ghost predicate SortedBy(s: seq<Product>, key: Product -> int) {
    forall i, j :: 0 <= i < j < |s| ==> key(s[i]) <= key(s[j])
  }

  /** Inserts `x` after every element whose key is not greater than its own. */
  function Insert(x: Product, s: seq<Product>, key: Product -> int): (r: seq<Product>)
    ensures multiset(r) == multiset(s) + multiset{x}
  {
    if s == [] then [x]
    else if key(x) < key(s[0]) then [x] + s
    else
      assert s == [s[0]] + s[1..];
      [s[0]] + Insert(x, s[1..], key)
  }

  /** Inserting into a sorted sequence keeps it sorted. */
  lemma {:induction false} InsertSorted(x: Product, s: seq<Product>, key: Product -> int)
    requires SortedBy(s, key)
    ensures SortedBy(Insert(x, s, key), key)
  {
    if s != [] && key(x) >= key(s[0]) {
      var rest := Insert(x, s[1..], key);
      InsertSorted(x, s[1..], key);
      forall j | 0 <= j < |rest|
        ensures key(s[0]) <= key(rest[j])
      {
        assert rest[j] in multiset(s[1..]) + multiset{x};
        if rest[j] != x {
          assert rest[j] in s[1..];
        }
      }
    }
  }

  /** A stable insertion sort by `key`: a permutation of `s` in key order. */
  function SortBy(s: seq<Product>, key: Product -> int): (r: seq<Product>)
    ensures multiset(r) == multiset(s)
    ensures SortedBy(r, key)
  {
    if s == [] then []
    else
      assert s == s[..|s| - 1] + [s[|s| - 1]];
      InsertSorted(s[|s| - 1], SortBy(s[..|s| - 1], key), key);
      Insert(s[|s| - 1], SortBy(s[..|s| - 1], key), key)
  }

  /**
    * `sortProducts(list, sortBy)` on a copy of the list. `collate` ranks strings
    * the way `localeCompare` orders them.
    */
  function SortProducts(ps: seq<Product>, sortBy: string, collate: string -> int): (r: seq<Product>)
    ensures multiset(r) == multiset(ps)
    ensures sortBy == "price" ==> forall i, j :: 0 <= i < j < |r| ==> r[i].price <= r[j].price
    ensures sortBy == "stock" ==> forall i, j :: 0 <= i < j < |r| ==> r[i].stock >= r[j].stock
    ensures sortBy == "name" ==> forall i, j :: 0 <= i < j < |r| ==> collate(r[i].name) <= collate(r[j].name)
    ensures sortBy == "category" ==> forall i, j :: 0 <= i < j < |r| ==> collate(r[i].category) <= collate(r[j].category)
    ensures sortBy !in ["name", "price", "stock", "category"] ==> r == ps
  {
    if sortBy == "name" then SortBy(ps, (p: Product) => collate(p.name))
    else if sortBy == "price" then SortBy(ps, (p: Product) => p.price)
    else if sortBy == "stock" then SortBy(ps, (p: Product) => -p.stock)
    else if sortBy == "category" then SortBy(ps, (p: Product) => collate(p.category))
    else ps
  }
}
