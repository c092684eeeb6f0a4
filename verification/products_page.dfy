/** The product page: the form validator, the table filter, the stat cards and the sales-history totals. */
module ProductsPage {
  import opened Wrappers
  import opened Seqs
  import opened Catalog
  import opened Stats
  import opened Text
  import Inventory

  /**
    * The product form after trimming. A number is `None` when `parseFloat` or
    * `parseInt` yields `NaN`.
    */
  datatype ProductForm = ProductForm(
    name: string,
    category: string,
    price: Option<int>,
    stock: Option<int>,
    minStock: Option<int>,
    barcode: string)

  /** The validator's complaints, in the order it checks for them. */
  datatype Invalid = MissingName | MissingCategory | BadPrice | BadStock | BadMinStock | MissingBarcode | DuplicateBarcode

  datatype Verdict = Accept | Reject(reason: Invalid)

  /** `isNaN(x) || x < 0`. */
  predicate BadNumber(x: Option<int>) {
    x.None? || x.value < 0
  }

  /**
    * `products.find(p => p.barcode === barcode && p.id !== editedId)`. `editedId`
    * is `None` for a new product, whose empty id field differs from every id.
    */
  function FindBarcodeClash(ps: seq<Product>, barcode: string, editedId: Option<int>): (r: Option<Product>)
    ensures r.None? <==> forall i :: 0 <= i < |ps| ==>
      ps[i].barcode != barcode || (editedId.Some? && ps[i].id == editedId.value)
    ensures r.Some? ==> r.value in ps && r.value.barcode == barcode && (editedId.None? || r.value.id != editedId.value)
  {
    if ps == [] then None
    else if ps[0].barcode == barcode && (editedId.None? || ps[0].id != editedId.value) then Some(ps[0])
    else FindBarcodeClash(ps[1..], barcode, editedId)
  }

  /** `validateProductData`: the checks in order, the first failing one deciding the verdict. */
  function Validate(form: ProductForm, ps: seq<Product>, editedId: Option<int>): (r: Verdict)
    ensures r == Accept <==>
      && form.name != "" && form.category != ""
      && !BadNumber(form.price) && !BadNumber(form.stock) && !BadNumber(form.minStock)
      && form.barcode != ""
      && forall i :: 0 <= i < |ps| ==> ps[i].barcode != form.barcode || (editedId.Some? && ps[i].id == editedId.value)
    ensures r.Reject? ==> Fails(form, ps, editedId, r.reason)
  {
    if form.name == "" then Reject(MissingName)
    else if form.category == "" then Reject(MissingCategory)
    else if BadNumber(form.price) then Reject(BadPrice)
    else if BadNumber(form.stock) then Reject(BadStock)
    else if BadNumber(form.minStock) then Reject(BadMinStock)
    else if form.barcode == "" then Reject(MissingBarcode)
    else if FindBarcodeClash(ps, form.barcode, editedId).Some? then Reject(DuplicateBarcode)
    else Accept
  }

  /** Each check on its own: whether the form fails it. */
  ghost predicate Fails(form: ProductForm, ps: seq<Product>, editedId: Option<int>, k: Invalid) {
    match k
    case MissingName => form.name == ""
    case MissingCategory => form.category == ""
    case BadPrice => BadNumber(form.price)
    case BadStock => BadNumber(form.stock)
    case BadMinStock => BadNumber(form.minStock)
    case MissingBarcode => form.barcode == ""
    case DuplicateBarcode =>
      exists i :: 0 <= i < |ps| && ps[i].barcode == form.barcode && (editedId.None? || ps[i].id != editedId.value)
  }

  /** The position of a check in the validator's order. */
  function Rank(k: Invalid): nat {
    match k
    case MissingName => 0
    case MissingCategory => 1
    case BadPrice => 2
    case BadStock => 3
    case BadMinStock => 4
    case MissingBarcode => 5
    case DuplicateBarcode => 6
  }

  /**
    * The validator rejects with `k` exactly when check `k` fails and every
    * earlier check passes, and accepts exactly when no check fails.
    */
  lemma ValidateIsFirstFailure(form: ProductForm, ps: seq<Product>, editedId: Option<int>, k: Invalid)
    ensures Validate(form, ps, editedId) == Reject(k) <==>
      Fails(form, ps, editedId, k) && forall j :: Rank(j) < Rank(k) ==> !Fails(form, ps, editedId, j)
    ensures Validate(form, ps, editedId) == Accept <==> forall j :: !Fails(form, ps, editedId, j)
  {
    var clash := FindBarcodeClash(ps, form.barcode, editedId);
    assert Fails(form, ps, editedId, DuplicateBarcode) <==> clash.Some?;
    assert Fails(form, ps, editedId, MissingName) == (form.name == "");
    assert Fails(form, ps, editedId, MissingCategory) == (form.category == "");
    assert Fails(form, ps, editedId, BadPrice) == BadNumber(form.price);
    assert Fails(form, ps, editedId, BadStock) == BadNumber(form.stock);
    assert Fails(form, ps, editedId, BadMinStock) == BadNumber(form.minStock);
    assert Fails(form, ps, editedId, MissingBarcode) == (form.barcode == "");
    if Validate(form, ps, editedId) == Reject(k) {
      forall j | Rank(j) < Rank(k) ensures !Fails(form, ps, editedId, j) {
        match j
        case MissingName =>
        case MissingCategory =>
        case BadPrice =>
        case BadStock =>
        case BadMinStock =>
        case MissingBarcode =>
        case DuplicateBarcode =>
      }
    }
    if Validate(form, ps, editedId) == Accept {
      forall j ensures !Fails(form, ps, editedId, j) {
        match j
        case MissingName =>
        case MissingCategory =>
        case BadPrice =>
        case BadStock =>
        case BadMinStock =>
        case MissingBarcode =>
        case DuplicateBarcode =>
      }
    }
  }

  /** Editing a product that keeps its own barcode is accepted when the other fields are in order. */
  lemma EditKeepingOwnBarcode(form: ProductForm, ps: seq<Product>, editedId: int)
    requires form.name != "" && form.category != "" && form.barcode != ""
    requires !BadNumber(form.price) && !BadNumber(form.stock) && !BadNumber(form.minStock)
    requires forall i :: 0 <= i < |ps| && ps[i].barcode == form.barcode ==> ps[i].id == editedId
    ensures Validate(form, ps, Some(editedId)) == Accept
  {
  }

  /** A new product whose other fields are valid is rejected whenever any product already carries its barcode. */
  lemma NewProductNeedsFreshBarcode(form: ProductForm, ps: seq<Product>, j: int)
    requires form.name != "" && form.category != "" && form.barcode != ""
    requires !BadNumber(form.price) && !BadNumber(form.stock) && !BadNumber(form.minStock)
    requires 0 <= j < |ps| && ps[j].barcode == form.barcode
    ensures Validate(form, ps, None) == Reject(DuplicateBarcode)
  {
  }

  /** The table filter's test. `term` is the lower-cased search box; `status` is the page's stock-status helper. */
  predicate MatchesProduct(p: Product, term: string, category: string, statusFilter: string, status: (int, int) -> string) {
    && (Contains(Lower(p.name), term) || Contains(Lower(p.barcode), term))
    && (category == "" || p.category == category)
    && (statusFilter == "" || status(p.stock, p.minStock) == statusFilter)
  }

  /** `filterProducts`: the products passing the search, category and status filters, in table order. */
  function FilterProducts(ps: seq<Product>, search: string, category: string, statusFilter: string,
                          status: (int, int) -> string): (r: seq<Product>)
    ensures IsSubseq(r, ps)
    ensures forall p :: p in r <==> p in ps && MatchesProduct(p, Lower(search), category, statusFilter, status)
  {
    Filter(ps, (p: Product) => MatchesProduct(p, Lower(search), category, statusFilter, status))
  }

  /** Narrowing the category never shows more products than the same search without it. */
  lemma CategoryNarrows(ps: seq<Product>, search: string, category: string, statusFilter: string,
                        status: (int, int) -> string)
    ensures |FilterProducts(ps, search, category, statusFilter, status)| <= |FilterProducts(ps, search, "", statusFilter, status)|
  {
    FilterMonotone(ps,
      (p: Product) => MatchesProduct(p, Lower(search), category, statusFilter, status),
      (p: Product) => MatchesProduct(p, Lower(search), "", statusFilter, status));
  }

  /** The three stat cards. */
  datatype ProductStats = ProductStats(totalProducts: int, lowStock: int, outOfStock: int)

  /** `updateProductStats`: low stock includes sold-out products; sold out means stock zero. */
  function UpdateProductStats(ps: seq<Product>): (r: ProductStats)
    ensures r.totalProducts == |ps|
    ensures r.lowStock == |Filter(ps, IsLowStock)| && r.outOfStock == |Filter(ps, Inventory.SoldOut)|
    ensures 0 <= r.outOfStock <= r.totalProducts && 0 <= r.lowStock <= r.totalProducts
  {
    ProductStats(|ps|, |Filter(ps, IsLowStock)|, |Filter(ps, Inventory.SoldOut)|)
  }

  /** With non-negative thresholds every sold-out product is also counted as low. */
  lemma OutOfStockAmongLow(ps: seq<Product>)
    requires forall i :: 0 <= i < |ps| ==> ps[i].minStock >= 0
    ensures UpdateProductStats(ps).outOfStock <= UpdateProductStats(ps).lowStock
  {
    FilterMonotone(ps, Inventory.SoldOut, IsLowStock);
  }

  /**
    * For non-negative stock and thresholds, this page's low-stock card is the
    * inventory dashboard's low-stock and sold-out cards added together.
    */
  lemma LowCardsAgree(ps: seq<Product>)
    requires forall i :: 0 <= i < |ps| ==> ps[i].minStock >= 0 && ps[i].stock >= 0
    ensures UpdateProductStats(ps).lowStock == Inventory.LoadDashboard(ps).lowStock + Inventory.LoadDashboard(ps).outOfStock
  {
    FilterSplit(ps, IsLowStock, Inventory.DashboardLow, Inventory.SoldOut);
  }

  /** One line of an order as the sales-history table reads it. */
  datatype OrderItem = OrderItem(id: int, quantity: int, price: int)

  /** An order as the sales-history table reads it. */
  datatype PageOrder = PageOrder(id: int, items: seq<OrderItem>, status: string, date: string)

  /** `order.items.find(item => item.id === productId)`. */
  function FirstItem(items: seq<OrderItem>, productId: int): (r: Option<OrderItem>)
    ensures r.None? <==> forall i :: 0 <= i < |items| ==> items[i].id != productId
    ensures r.Some? ==>
      exists k :: 0 <= k < |items| && r.value == items[k] && r.value.id == productId
        && forall j :: 0 <= j < k ==> items[j].id != productId
  {
    if items == [] then None
    else if items[0].id == productId then Some(items[0])
    else FirstItem(items[1..], productId)
  }

  /** The footer of the sales-history table. */
  datatype HistoryTotals = HistoryTotals(quantity: int, amount: int)

  function Sum(a: HistoryTotals, b: HistoryTotals): HistoryTotals {
    HistoryTotals(a.quantity + b.quantity, a.amount + b.amount)
  }

  /** What one order adds: its first line for the product, or nothing. */
  function OrderShare(o: PageOrder, productId: int): HistoryTotals {
    match FirstItem(o.items, productId)
    case None => HistoryTotals(0, 0)
    case Some(item) => HistoryTotals(item.quantity, item.price * item.quantity)
  }

  /** Σ quantity and Σ price × quantity over the orders' lines for the product. */
  function History(os: seq<PageOrder>, productId: int): HistoryTotals {
    if os == [] then HistoryTotals(0, 0)
    else Sum(History(os[..|os| - 1], productId), OrderShare(os[|os| - 1], productId))
  }

  /** The totals of two runs of orders add up. */
  lemma {:induction false} HistoryAppend(a: seq<PageOrder>, b: seq<PageOrder>, productId: int)
    ensures History(a + b, productId) == Sum(History(a, productId), History(b, productId))
    decreases |b|
  {
    if b == [] {
      assert a + b == a;
    } else {
      var init := b[..|b| - 1];
      assert (a + b)[..|a + b| - 1] == a + init;
      HistoryAppend(a, init, productId);
    }
  }

  /** Orders without a line for the product contribute nothing. */
  lemma {:induction false} HistoryWithoutProduct(os: seq<PageOrder>, productId: int)
    requires forall k, i :: 0 <= k < |os| && 0 <= i < |os[k].items| ==> os[k].items[i].id != productId
    ensures History(os, productId) == HistoryTotals(0, 0)
    decreases |os|
  {
    if os != [] {
      var init := os[..|os| - 1];
      forall k, i | 0 <= k < |init| && 0 <= i < |init[k].items|
        ensures init[k].items[i].id != productId
      {
        assert init[k] == os[k];
      }
      HistoryWithoutProduct(init, productId);
      var last := os[|os| - 1];
      assert forall i :: 0 <= i < |last.items| ==> last.items[i].id != productId;
      assert FirstItem(last.items, productId).None?;
    }
  }

  /** `generateOrderHistoryTable`'s footer totals, accumulated while the rows are built. */
  method OrderHistoryTotals(os: seq<PageOrder>, productId: int) returns (totalQuantity: int, totalAmount: int)
    ensures HistoryTotals(totalQuantity, totalAmount) == History(os, productId)
  {
    totalQuantity, totalAmount := 0, 0;
    for k := 0 to |os|
      invariant HistoryTotals(totalQuantity, totalAmount) == History(os[..k], productId)
    {
      assert os[..k + 1][..k] == os[..k];
      var item := FirstItem(os[k].items, productId);
      if item.Some? {
        totalQuantity := totalQuantity + item.value.quantity;
        totalAmount := totalAmount + item.value.price * item.value.quantity;
      }
    }
    assert os[..|os|] == os;
  }
}
