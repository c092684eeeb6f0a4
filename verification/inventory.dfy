/**
  * The inventory page: the adjustment and receiving forms, the per-category
  * report breakdown, the dashboard counters, the table filter, the recent
  * movements list and the chart palette.
  */
module Inventory {
  import opened Wrappers
  import opened Seqs
  import opened Catalog
  import opened Stats
  import opened Text

  /**
    * The adjustment form. `productId` is `None` when the field is empty and
    * `quantity` is `None` when `parseInt` yields `NaN`.
    */
  datatype AdjustForm = AdjustForm(productId: Option<int>, adjustmentType: string, quantity: Option<int>, reason: string)

  /** The receiving form; the unit cost is not modelled. */
  datatype ReceiveForm = ReceiveForm(productId: Option<int>, quantity: Option<int>, supplier: string, notes: string)

  /**
    * What a form submission does: nothing because the input was rejected,
    * nothing because no product has the id, or replace the record at `index`
    * by `product` and hand `movement` to the movement log.
    */
  datatype Outcome = Rejected | NotFound | Applied(index: nat, product: Product, movement: Movement)

  /** The guard both handlers share: a product is chosen and the quantity is a positive number. */
  predicate Acceptable(productId: Option<int>, quantity: Option<int>) {
    productId.Some? && quantity.Some? && quantity.value > 0
  }

  function MaxZero(x: int): int {
    if x < 0 then 0 else x
  }

  /**
    * `processStockAdjustment`. An `increase` adds the quantity; any other type
    * subtracts it, flooring the stock at zero. The recorded previous stock is
    * reconstructed from the new stock and the quantity. `freshId` is the id
    * `generateId` supplies and `now` the clock's timestamp.
    */
  function Adjust(ps: seq<Product>, form: AdjustForm, freshId: int, now: string): (r: Outcome)
    ensures r.Rejected? <==> !Acceptable(form.productId, form.quantity)
    ensures r.NotFound? <==>
      Acceptable(form.productId, form.quantity) && forall i :: 0 <= i < |ps| ==> ps[i].id != form.productId.value
    ensures r.Applied? ==> r.index < |ps|
    ensures r.Applied? && r.index < |ps| ==>
      var before := ps[r.index];
      var q := form.quantity.value;
      && before.id == form.productId.value
      && (forall i :: 0 <= i < r.index ==> ps[i].id != before.id)
      && r.product == before.(stock := r.product.stock, lastUpdated := now)
      && Balanced(r.movement)
      && r.movement.currentStock == r.product.stock
      && r.movement.productId == before.id
      && (form.adjustmentType == "increase" ==>
            r.product.stock == before.stock + q && r.movement.quantity == q
            && r.movement.kind == "adjustment_in")
      && (form.adjustmentType != "increase" ==>
            r.product.stock == MaxZero(before.stock - q) && r.movement.quantity == -q
            && r.movement.kind == "adjustment_out" && r.product.stock >= 0)
  {
    if !Acceptable(form.productId, form.quantity) then Rejected
    else
      var i := IndexOf(ps, form.productId.value);
      if i < 0 then NotFound
      else
        var p := ps[i];
        var q := form.quantity.value;
        var increase := form.adjustmentType == "increase";
        var newStock := if increase then p.stock + q else MaxZero(p.stock - q);
        Applied(i, p.(stock := newStock, lastUpdated := now),
          Movement(freshId, form.productId.value, p.name,
            if increase then "adjustment_in" else "adjustment_out",
            if increase then q else -q,
            if increase then newStock - q else newStock + q,
            newStock, now, form.reason, None))
  }

  /**
    * The recorded previous stock is the true previous stock except after a
    * decrease that the floor at zero cut short.
    */
  lemma AdjustPreviousStock(ps: seq<Product>, form: AdjustForm, freshId: int, now: string)
    requires Adjust(ps, form, freshId, now).Applied?
    ensures var r := Adjust(ps, form, freshId, now);
      r.movement.previousStock == ps[r.index].stock <==>
        form.adjustmentType == "increase" || ps[r.index].stock >= form.quantity.value
  {
  }

  /** A decrease of 5 from a stock of 3 records 5 as the previous stock, not 3. */
  lemma AdjustFlooredExample()
    ensures var p := Product(1, "tissue", "daily", 3000, 3, 5, "", "", "", "", "");
      var r := Adjust([p], AdjustForm(Some(1), "decrease", Some(5), ""), 7, "t");
      && r.Applied? && r.product.stock == 0
      && r.movement.previousStock == 5 && r.movement.quantity == -5
  {
  }

  /**
    * `processStockReceive`: the stock grows by the received quantity and the
    * movement records the stock captured before the update.
    */
  function Receive(ps: seq<Product>, form: ReceiveForm, freshId: int, now: string): (r: Outcome)
    ensures r.Rejected? <==> !Acceptable(form.productId, form.quantity)
    ensures r.NotFound? <==>
      Acceptable(form.productId, form.quantity) && forall i :: 0 <= i < |ps| ==> ps[i].id != form.productId.value
    ensures r.Applied? ==> r.index < |ps|
    ensures r.Applied? && r.index < |ps| ==>
      var before := ps[r.index];
      && before.id == form.productId.value
      && (forall i :: 0 <= i < r.index ==> ps[i].id != before.id)
      && r.product == before.(stock := before.stock + form.quantity.value, lastUpdated := now)
      && r.product.stock > before.stock
      && Balanced(r.movement)
      && r.movement.previousStock == before.stock
      && r.movement.currentStock == r.product.stock
      && r.movement.kind == "receive"
      && r.movement.supplier == Some(form.supplier)
  {
    if !Acceptable(form.productId, form.quantity) then Rejected
    else
      var i := IndexOf(ps, form.productId.value);
      if i < 0 then NotFound
      else
        var p := ps[i];
        var previousStock := p.stock;
        var newStock := p.stock + form.quantity.value;
        Applied(i, p.(stock := newStock, lastUpdated := now),
          Movement(freshId, form.productId.value, p.name, "receive", form.quantity.value,
            previousStock, newStock, now, form.notes, Some(form.supplier)))
  }

  /** Applying an outcome changes the total stock by exactly the recorded movement's quantity. */
  lemma OutcomeConservesStock(ps: seq<Product>, r: Outcome)
    requires r.Applied? && r.index < |ps|
    requires r.product.stock - ps[r.index].stock == r.movement.quantity
    ensures TotalStock(ps[r.index := r.product]) == TotalStock(ps) + r.movement.quantity
  {
    TotalStockReplace(ps, r.index, r.product);
  }

  /** Receiving always conserves stock; an adjustment does unless the floor at zero cut it short. */
  lemma HandlersConserveStock(ps: seq<Product>, adjust: AdjustForm, receive: ReceiveForm, freshId: int, now: string)
    ensures var r := Receive(ps, receive, freshId, now);
      r.Applied? ==> TotalStock(ps[r.index := r.product]) == TotalStock(ps) + r.movement.quantity
    ensures var r := Adjust(ps, adjust, freshId, now);
      r.Applied? && (adjust.adjustmentType == "increase" || ps[r.index].stock >= adjust.quantity.value) ==>
        TotalStock(ps[r.index := r.product]) == TotalStock(ps) + r.movement.quantity
  {
    var r := Receive(ps, receive, freshId, now);
    if r.Applied? {
      OutcomeConservesStock(ps, r);
    }
    var a := Adjust(ps, adjust, freshId, now);
    if a.Applied? && (adjust.adjustmentType == "increase" || ps[a.index].stock >= adjust.quantity.value) {
      OutcomeConservesStock(ps, a);
    }
  }

  /**
    * The page's view of the store: the product list `getProducts` yields, whose
    * found record the handlers edit in place, and the records handed to
    * `addStockMovement`, in call order.
    */
  class InventoryPage {
    var products: seq<Product>
    var recorded: seq<Movement>

    constructor (ps: seq<Product>)
      ensures products == ps && recorded == []
    {
      products, recorded := ps, [];
    }

    /** The adjustment form's submit handler. */
    method ProcessStockAdjustment(form: AdjustForm, freshId: int, now: string) returns (outcome: Outcome)
      modifies this
      ensures outcome == Adjust(old(products), form, freshId, now)
      ensures outcome.Applied? ==>
        products == old(products)[outcome.index := outcome.product]
        && recorded == old(recorded) + [outcome.movement]
      ensures !outcome.Applied? ==> products == old(products) && recorded == old(recorded)
    {
      if form.productId.None? || form.quantity.None? || form.quantity.value <= 0 {
        return Rejected;
      }
      var productId, quantity := form.productId.value, form.quantity.value;
      var i := IndexOf(products, productId);
      if i < 0 {
        return NotFound;
      }
      var product := products[i];
      var newStock, movementType;
      if form.adjustmentType == "increase" {
        newStock, movementType := product.stock + quantity, "adjustment_in";
      } else {
        newStock, movementType := MaxZero(product.stock - quantity), "adjustment_out";
      }
      product := product.(stock := newStock, lastUpdated := now);
      products := products[i := product];
      var increase := form.adjustmentType == "increase";
      var m := Movement(freshId, productId, product.name, movementType,
        if increase then quantity else -quantity,
        if increase then product.stock - quantity else product.stock + quantity,
        newStock, now, form.reason, None);
      recorded := recorded + [m];
      outcome := Applied(i, product, m);
    }

    /** The receiving form's submit handler. */
    method ProcessStockReceive(form: ReceiveForm, freshId: int, now: string) returns (outcome: Outcome)
      modifies this
      ensures outcome == Receive(old(products), form, freshId, now)
      ensures outcome.Applied? ==>
        products == old(products)[outcome.index := outcome.product]
        && recorded == old(recorded) + [outcome.movement]
      ensures !outcome.Applied? ==> products == old(products) && recorded == old(recorded)
    {
      if form.productId.None? || form.quantity.None? || form.quantity.value <= 0 {
        return Rejected;
      }
      var productId, quantity := form.productId.value, form.quantity.value;
      var i := IndexOf(products, productId);
      if i < 0 {
        return NotFound;
      }
      var product := products[i];
      var previousStock := product.stock;
      var newStock := product.stock + quantity;
      product := product.(stock := newStock, lastUpdated := now);
      products := products[i := product];
      var m := Movement(freshId, productId, product.name, "receive", quantity, previousStock, newStock,
        now, form.notes, Some(form.supplier));
      recorded := recorded + [m];
      outcome := Applied(i, product, m);
    }
  }

  /** One category's line of the inventory report. */
  datatype Breakdown = Breakdown(count: int, totalStock: int, totalValue: int, lowStock: int, outOfStock: int)

  /**
    * Adds one product to its category's line: counted, its stock and value
    * added, and then either sold out (stock zero) or else low (at or below its
    * threshold).
    */
  function Tally(cat: Breakdown, p: Product): (r: Breakdown)
    ensures r.count == cat.count + 1
    ensures r.totalStock == cat.totalStock + p.stock && r.totalValue == cat.totalValue + p.stock * p.price
    ensures r.outOfStock == cat.outOfStock + (if p.stock == 0 then 1 else 0)
    ensures r.lowStock == cat.lowStock + (if p.stock != 0 && p.stock <= p.minStock then 1 else 0)
    ensures r.lowStock + r.outOfStock <= cat.lowStock + cat.outOfStock + 1
  {
    var counted := cat.(count := cat.count + 1, totalStock := cat.totalStock + p.stock,
      totalValue := cat.totalValue + p.stock * p.price);
    if p.stock == 0 then counted.(outOfStock := counted.outOfStock + 1)
    else if p.stock <= p.minStock then counted.(lowStock := counted.lowStock + 1)
    else counted
  }

  /** The report's sold-out test for category `c`. */
  function SoldOutIn(c: string): Product -> bool {
    (p: Product) => p.category == c && p.stock == 0
  }

  /** The report's low-stock test for category `c`: not sold out, and at or below the threshold. */
  function LowIn(c: string): Product -> bool {
    (p: Product) => p.category == c && p.stock != 0 && p.stock <= p.minStock
  }

  /** The report line of category `c`. */
  function BreakdownOf(ps: seq<Product>, c: string): (r: Breakdown)
    ensures r.outOfStock == |Filter(ps, SoldOutIn(c))|
    ensures r.lowStock == |Filter(ps, LowIn(c))|
    ensures 0 <= r.lowStock && 0 <= r.outOfStock && r.lowStock + r.outOfStock <= r.count
  {
    if ps == [] then Breakdown(0, 0, 0, 0, 0)
    else
      var init, last := ps[..|ps| - 1], ps[|ps| - 1];
      assert ps == init + [last];
      FilterSnoc(init, last, SoldOutIn(c));
      FilterSnoc(init, last, LowIn(c));
      var b := BreakdownOf(init, c);
      if last.category == c then Tally(b, last) else b
  }

  /** The report's count, stock and value of a category are the ledger's `getCategoryStats` figures. */
  lemma {:induction false} BreakdownAgreesWithTotals(ps: seq<Product>, c: string)
    ensures BreakdownOf(ps, c).count == TotalsOf(ps, c).count
    ensures BreakdownOf(ps, c).totalStock == TotalsOf(ps, c).stock
    ensures BreakdownOf(ps, c).totalValue == TotalsOf(ps, c).value
    decreases |ps|
  {
    if ps != [] {
      BreakdownAgreesWithTotals(ps[..|ps| - 1], c);
    }
  }

  /** Σ count over the categories `cats`. */
  function CountSum(ps: seq<Product>, cats: seq<string>): int {
    if cats == [] then 0 else CountSum(ps, cats[..|cats| - 1]) + BreakdownOf(ps, cats[|cats| - 1]).count
  }

  /** The report's per-category counts add up to the number of products. */
  lemma BreakdownCountsSum(ps: seq<Product>)
    ensures CountSum(ps, Categories(ps)) == |ps|
  {
    CountSumIsTotals(ps, Categories(ps));
    CategoryTotalsSum(ps);
  }

  lemma {:induction false} CountSumIsTotals(ps: seq<Product>, cats: seq<string>)
    ensures CountSum(ps, cats) == SumTotals(ps, cats).count
    decreases |cats|
  {
    if cats != [] {
      CountSumIsTotals(ps, cats[..|cats| - 1]);
      BreakdownAgreesWithTotals(ps, cats[|cats| - 1]);
    }
  }

  /** Appending one product extends the report the way the loop body does. */
  lemma BreakdownSnoc(s: seq<Product>, x: Product)
    ensures forall c :: BreakdownOf(s + [x], c) == if x.category == c then Tally(BreakdownOf(s, c), x) else BreakdownOf(s, c)
  {
    assert (s + [x])[..|s|] == s;
  }

  /** A category no product has reports all zeroes. */
  lemma {:induction false} BreakdownAbsent(ps: seq<Product>, c: string)
    requires c !in CategorySet(ps)
    ensures BreakdownOf(ps, c) == Breakdown(0, 0, 0, 0, 0)
    decreases |ps|
  {
    if ps != [] {
      var init := ps[..|ps| - 1];
      assert ps == init + [ps[|ps| - 1]];
      assert CategorySet(init) <= CategorySet(ps);
      BreakdownAbsent(init, c);
    }
  }

  /**
    * `getCategoryBreakdown`: one pass creating each category's line when first
    * seen and adding the product to it. `keys` is the order the lines were created in.
    */
  method GetCategoryBreakdown(ps: seq<Product>) returns (breakdown: map<string, Breakdown>, keys: seq<string>)
    ensures keys == Categories(ps)
    ensures breakdown.Keys == CategorySet(ps)
    ensures forall c :: c in breakdown ==> breakdown[c] == BreakdownOf(ps, c)
  {
    breakdown, keys := map[], [];
    for i := 0 to |ps|
      invariant keys == Categories(ps[..i])
      invariant breakdown.Keys == CategorySet(ps[..i])
      invariant forall c :: c in breakdown ==> breakdown[c] == BreakdownOf(ps[..i], c)
    {
      var product := ps[i];
      ghost var pre := ps[..i];
      PrefixSnoc(ps, i);
      SnocFacts(pre, product);
      var cat := Breakdown(0, 0, 0, 0, 0);
      if product.category in breakdown {
        cat := breakdown[product.category];
      } else {
        keys := keys + [product.category];
      }
      cat := Tally(cat, product);
      BreakdownMapStep(pre, product, breakdown);
      breakdown := breakdown[product.category := cat];
    }
    assert ps[..|ps|] == ps;
  }

  /** One turn of the report loop: the line of the product's category, created if new, takes the product. */
  lemma BreakdownMapStep(pre: seq<Product>, x: Product, before: map<string, Breakdown>)
    requires before.Keys == CategorySet(pre)
    requires forall c :: c in before ==> before[c] == BreakdownOf(pre, c)
    ensures var after := before[x.category := Tally(if x.category in before then before[x.category] else Breakdown(0, 0, 0, 0, 0), x)];
      forall c :: c in after ==> after[c] == BreakdownOf(pre + [x], c)
  {
    BreakdownSnoc(pre, x);
    if x.category !in before {
      BreakdownAbsent(pre, x.category);
    }
  }

  /** The dashboard's low-stock test: at or below the threshold but not sold out. */
  predicate DashboardLow(p: Product) {
    p.stock <= p.minStock && p.stock > 0
  }

  predicate SoldOut(p: Product) {
    p.stock == 0
  }

  /** The four dashboard cards. */
  datatype Dashboard = Dashboard(totalProducts: int, lowStock: int, outOfStock: int, stockValue: int)

  /** `loadInventoryDashboard`'s counters. */
  function LoadDashboard(ps: seq<Product>): (r: Dashboard)
    ensures r.totalProducts == |ps|
    ensures r.lowStock == |Filter(ps, DashboardLow)| && r.outOfStock == |Filter(ps, SoldOut)|
    ensures 0 <= r.lowStock && 0 <= r.outOfStock && r.lowStock + r.outOfStock <= r.totalProducts
    ensures r.stockValue == TotalValue(ps)
  {
    var low := Filter(ps, DashboardLow);
    var out := Filter(ps, SoldOut);
    FilterSplit(ps, (p: Product) => DashboardLow(p) || SoldOut(p), DashboardLow, SoldOut);
    Dashboard(|ps|, |low|, |out|, TotalValue(ps))
  }

  /** The table filter's test. `term` is the lower-cased search box; `status` is the page's stock-status helper. */
  predicate MatchesRow(p: Product, term: string, category: string, statusFilter: string, status: (int, int) -> string) {
    && (Contains(Lower(p.name), term) || Contains(Lower(p.category), term))
    && (category == "" || p.category == category)
    && (statusFilter == "" || status(p.stock, p.minStock) == statusFilter)
  }

  /** `filterInventoryTable`: the products whose row passes all three filters, in table order. */
  function FilterInventoryTable(ps: seq<Product>, search: string, category: string, statusFilter: string,
                                status: (int, int) -> string): (r: seq<Product>)
    ensures IsSubseq(r, ps)
    ensures forall p :: p in r <==> p in ps && MatchesRow(p, Lower(search), category, statusFilter, status)
  {
    Filter(ps, (p: Product) => MatchesRow(p, Lower(search), category, statusFilter, status))
  }

  /** With every filter empty the whole table is shown. */
  lemma EmptyInventoryFilterShowsAll(ps: seq<Product>, status: (int, int) -> string)
    ensures FilterInventoryTable(ps, "", "", "", status) == ps
  {
    forall i | 0 <= i < |ps|
      ensures MatchesRow(ps[i], Lower(""), "", "", status)
    {
      ContainsEmpty(Lower(ps[i].name));
    }
    FilterKeepsAll(ps, (p: Product) => MatchesRow(p, Lower(""), "", "", status));
  }

  /** `movements.slice(-10).reverse()`: the last ten entries of the log, last entry first. */
  function RecentMovements(ms: seq<Movement>): (r: seq<Movement>)
    ensures |r| == if |ms| < 10 then |ms| else 10
    ensures forall i :: 0 <= i < |r| ==> r[i] == ms[|ms| - 1 - i]
  {
    Reverse(TakeLast(ms, 10))
  }

  /** The twelve chart colours, which repeat some entries. */
  const Palette: seq<string> := [
    "#FF6384", "#36A2EB", "#FFCE56", "#4BC0C0",
    "#9966FF", "#FF9F40", "#FF6384", "#C9CBCF",
    "#4BC0C0", "#FF6384", "#36A2EB", "#FFCE56"]

  /** `generateColors(count)`: `count` colours cycling through the palette. */
  method GenerateColors(count: nat) returns (colors: seq<string>)
    ensures |colors| == count
    ensures forall i :: 0 <= i < count ==> colors[i] == Palette[i % 12]
  {
    colors := [];
    for i := 0 to count
      invariant |colors| == i
      invariant forall k :: 0 <= k < i ==> colors[k] == Palette[k % |Palette|]
    {
      colors := colors + [Palette[i % |Palette|]];
    }
  }
}
