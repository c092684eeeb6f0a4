/** The ledger's derived statistics: `getStats` and `getCategoryStats`. */
module Stats {
  import opened Wrappers
  import opened Seqs
  import opened Catalog
  import opened Text

  /** Σ stock over the catalogue, accumulated left to right like `reduce`. */
  function TotalStock(ps: seq<Product>): int {
    if ps == [] then 0 else TotalStock(ps[..|ps| - 1]) + ps[|ps| - 1].stock
  }

  /** Σ stock × price over the catalogue. */
  function TotalValue(ps: seq<Product>): int {
    if ps == [] then 0 else TotalValue(ps[..|ps| - 1]) + ps[|ps| - 1].stock * ps[|ps| - 1].price
  }

  /** With no negative stock or price, neither sum is negative. */
  lemma {:induction false} TotalsNonNegative(ps: seq<Product>)
    requires forall i :: 0 <= i < |ps| ==> ps[i].stock >= 0 && ps[i].price >= 0
    ensures TotalStock(ps) >= 0 && TotalValue(ps) >= 0
    decreases |ps|
  {
    if ps != [] {
      TotalsNonNegative(ps[..|ps| - 1]);
    }
  }

  /**
    * Replacing one record changes the stock total by exactly the change of that
    * record's stock: the conservation law behind every stock mutation.
    */
  lemma {:induction false} TotalStockReplace(ps: seq<Product>, i: int, q: Product)
    requires 0 <= i < |ps|
    ensures TotalStock(ps[i := q]) == TotalStock(ps) - ps[i].stock + q.stock
    decreases |ps|
  {
    var n := |ps| - 1;
    assert ps[i := q][..n] == if i < n then ps[..n][i := q] else ps[..n];
    if i < n {
      TotalStockReplace(ps[..n], i, q);
    }
  }

  /** Appending a product adds its stock to the total. */
  lemma TotalStockAppend(ps: seq<Product>, p: Product)
    ensures TotalStock(ps + [p]) == TotalStock(ps) + p.stock
  {
    assert (ps + [p])[..|ps|] == ps;
  }

  /** Removing the record at `i` takes exactly its stock out of the total. */
  lemma {:induction false} TotalStockRemove(ps: seq<Product>, i: int)
    requires 0 <= i < |ps|
    ensures TotalStock(ps[..i] + ps[i + 1..]) == TotalStock(ps) - ps[i].stock
    decreases |ps|
  {
    var n := |ps| - 1;
    if i == n {
      assert ps[..i] + ps[i + 1..] == ps[..n];
    } else {
      var rest := ps[..i] + ps[i + 1..];
      assert rest[..|rest| - 1] == ps[..n][..i] + ps[..n][i + 1..];
      assert rest[|rest| - 1] == ps[n];
      TotalStockRemove(ps[..n], i);
    }
  }

  /** The set of categories in use. */
  ghost function CategorySet(ps: seq<Product>): set<string> {
    set p | p in ps :: p.category
  }

  /** `[...new Set(products.map(p => p.category))]`: each category once, in order of first appearance. */
  function Categories(ps: seq<Product>): (r: seq<string>)
    ensures Distinct(r)
    ensures forall c :: c in r <==> c in CategorySet(ps)
    ensures |r| <= |ps|
  {
    if ps == [] then []
    else
      var init := ps[..|ps| - 1];
      var r := Categories(init);
      var c := ps[|ps| - 1].category;
      assert CategorySet(ps) == CategorySet(init) + {c} by {
        assert ps == init + [ps[|ps| - 1]];
      }
      if c in r then r else r + [c]
  }

  /** The aggregate `getCategoryStats` keeps per category. */
  datatype CategoryTotals = CategoryTotals(count: int, stock: int, value: int)

  const Zero := CategoryTotals(0, 0, 0)

  function Plus(a: CategoryTotals, b: CategoryTotals): CategoryTotals {
    CategoryTotals(a.count + b.count, a.stock + b.stock, a.value + b.value)
  }

  /** One product's contribution to its category. */
  function Unit(p: Product): CategoryTotals {
    CategoryTotals(1, p.stock, p.stock * p.price)
  }

  /** The totals over the products of category `c`. */
  function TotalsOf(ps: seq<Product>, c: string): CategoryTotals {
    if ps == [] then Zero
    else
      var t := TotalsOf(ps[..|ps| - 1], c);
      if ps[|ps| - 1].category == c then Plus(t, Unit(ps[|ps| - 1])) else t
  }

  /** The totals of the categories `cats`, added together. */
  function SumTotals(ps: seq<Product>, cats: seq<string>): CategoryTotals {
    if cats == [] then Zero
    else Plus(SumTotals(ps, cats[..|cats| - 1]), TotalsOf(ps, cats[|cats| - 1]))
  }

  /** A category no product has is all zeroes. */
  lemma {:induction false} TotalsOfAbsent(ps: seq<Product>, c: string)
    requires c !in CategorySet(ps)
    ensures TotalsOf(ps, c) == Zero
    decreases |ps|
  {
    if ps != [] {
      var init := ps[..|ps| - 1];
      assert ps == init + [ps[|ps| - 1]];
      assert CategorySet(init) <= CategorySet(ps);
      TotalsOfAbsent(init, c);
    }
  }

  /** Adding a product `x` adds `Unit(x)` to a sum over distinct categories exactly when its category is one of them. */
  lemma {:induction false} SumTotalsSnoc(s: seq<Product>, x: Product, cats: seq<string>)
    requires Distinct(cats)
    ensures SumTotals(s + [x], cats) ==
      if x.category in cats then Plus(SumTotals(s, cats), Unit(x)) else SumTotals(s, cats)
    decreases |cats|
  {
    var ps := s + [x];
    assert ps[..|ps| - 1] == s;
    if cats != [] {
      var init := cats[..|cats| - 1];
      var last := cats[|cats| - 1];
      assert cats == init + [last];
      SumTotalsSnoc(s, x, init);
    }
  }

  /**
    * The per-category counts, stocks and values of `getCategoryStats` add up to
    * the catalogue's size, total stock and total value.
    */
  lemma {:induction false} CategoryTotalsSum(ps: seq<Product>)
    ensures SumTotals(ps, Categories(ps)) == CategoryTotals(|ps|, TotalStock(ps), TotalValue(ps))
    decreases |ps|
  {
    if ps != [] {
      var s := ps[..|ps| - 1];
      var x := ps[|ps| - 1];
      assert ps == s + [x];
      var cs := Categories(s);
      CategoryTotalsSum(s);
      SumTotalsSnoc(s, x, cs);
      if x.category !in cs {
        assert Categories(ps) == cs + [x.category];
        assert (cs + [x.category])[..|cs|] == cs;
        TotalsOfAbsent(s, x.category);
      }
    }
  }

  /** A product is low on stock when its stock is at or below its reorder threshold. */
  predicate IsLowStock(p: Product) {
    p.stock <= p.minStock
  }

  /** Σ amount over a list of orders. */
  function SalesSum(os: seq<Order>): int {
    if os == [] then 0 else SalesSum(os[..|os| - 1]) + os[|os| - 1].amount
  }

  /** What `getStats` returns. */
  datatype StoreStats = StoreStats(
    totalProducts: int,
    totalStock: int,
    totalValue: int,
    lowStockCount: int,
    lowStockProducts: seq<Product>,
    categoryCount: int,
    categories: seq<string>,
    todaySales: int,
    todayOrderCount: int)

  /**
    * `getStats`. `today` is the date string the source builds from the clock;
    * an order counts as today's when its time string contains it.
    */
  function GetStats(ps: seq<Product>, os: seq<Order>, today: string): (r: StoreStats)
    ensures r.totalProducts == |ps|
    ensures r.totalStock == TotalStock(ps) && r.totalValue == TotalValue(ps)
    ensures r.lowStockProducts == Filter(ps, IsLowStock)
    ensures r.lowStockCount == |r.lowStockProducts| <= r.totalProducts
    ensures forall i :: 0 <= i < |r.lowStockProducts| ==> r.lowStockProducts[i] in ps && IsLowStock(r.lowStockProducts[i])
    ensures forall i :: 0 <= i < |ps| && IsLowStock(ps[i]) ==> ps[i] in r.lowStockProducts
    ensures r.categoryCount == |r.categories| <= r.totalProducts
    ensures r.categories == Categories(ps)
    ensures Distinct(r.categories)
    ensures forall c :: c in r.categories <==> c in CategorySet(ps)
    ensures r.todayOrderCount <= |os|
  {
    var low := Filter(ps, IsLowStock);
    var cats := Categories(ps);
    var todays := Filter(os, (o: Order) => Contains(o.time, today));
    StoreStats(|ps|, TotalStock(ps), TotalValue(ps), |low|, low, |cats|, cats, SalesSum(todays), |todays|)
  }

  /** How appending one product extends the categories and the per-category totals. */
  lemma SnocFacts(s: seq<Product>, x: Product)
    ensures CategorySet(s + [x]) == CategorySet(s) + {x.category}
    ensures Categories(s + [x]) == if x.category in Categories(s) then Categories(s) else Categories(s) + [x.category]
    ensures forall c :: TotalsOf(s + [x], c) == if x.category == c then Plus(TotalsOf(s, c), Unit(x)) else TotalsOf(s, c)
  {
    assert (s + [x])[..|s|] == s;
  }

  /**
    * `getCategoryStats`: one pass over the catalogue, creating a category's entry
    * when first seen and adding the product to it. `keys` is the order in which
    * the entries were created.
    */
  method GetCategoryStats(ps: seq<Product>) returns (stats: map<string, CategoryTotals>, keys: seq<string>)
    ensures keys == Categories(ps)
    ensures stats.Keys == CategorySet(ps)
    ensures forall c :: c in stats ==> stats[c] == TotalsOf(ps, c)
  {
    stats, keys := map[], [];
    for i := 0 to |ps|
      invariant keys == Categories(ps[..i])
      invariant stats.Keys == CategorySet(ps[..i])
      invariant forall c :: c in stats ==> stats[c] == TotalsOf(ps[..i], c)
    {
      var p := ps[i];
      ghost var pre := ps[..i];
      assert ps[..i + 1] == pre + [p];
      SnocFacts(pre, p);
      var t := Zero;
      if p.category in stats {
        t := stats[p.category];
      } else {
        TotalsOfAbsent(pre, p.category);
        keys := keys + [p.category];
      }
      assert t == TotalsOf(pre, p.category);
      ghost var old_stats := stats;
      stats := stats[p.category := Plus(t, Unit(p))];
      forall c | c in stats
        ensures stats[c] == TotalsOf(pre + [p], c)
      {
        if c != p.category {
          assert stats[c] == old_stats[c];
        }
      }
    }
    assert ps[..|ps|] == ps;
  }
}
