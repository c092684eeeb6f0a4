/**
  * `DataManager`: the store's single owner of the catalogue, the order list and
  * the stock-movement log. Every mutation is a synchronous in-place update of
  * one of the three lists.
  */
module Ledger {
  import opened Wrappers
  import opened Seqs
  import opened Catalog
  import opened Stats

  /** The fields `addProduct` copies from its argument. `minStock` is `None` when missing or `NaN`. */
  datatype ProductInput = ProductInput(
    name: string,
    category: string,
    price: int,
    stock: int,
    minStock: Option<int>,
    description: string,
    barcode: string,
    supplier: string)

  /** `product.minStock || 10`: a missing, `NaN` or zero threshold becomes 10. */
  function DefaultMinStock(m: Option<int>): (r: int)
    ensures r != 0
    ensures m.Some? && m.value != 0 ==> r == m.value
    ensures m.None? || m == Some(0) ==> r == 10
  {
    if m.Some? && m.value != 0 then m.value else 10
  }

  /** The fields an `updateProduct` call supplies; `None` is a field the update object does not have. */
  datatype ProductPatch = ProductPatch(
    id: Option<int>,
    name: Option<string>,
    category: Option<string>,
    price: Option<int>,
    stock: Option<int>,
    minStock: Option<int>,
    description: Option<string>,
    barcode: Option<string>,
    supplier: Option<string>,
    lastStockIn: Option<string>,
    lastUpdated: Option<string>)

  const NoChanges := ProductPatch(None, None, None, None, None, None, None, None, None, None, None)

  /** `{ ...p, ...u }`: each field the patch supplies overrides the record's. */
  function Merge(p: Product, u: ProductPatch): (r: Product)
    ensures u.id.Some? ==> r.id == u.id.value
    ensures u.id.None? ==> r.id == p.id
    ensures u.name.Some? ==> r.name == u.name.value
    ensures u.name.None? ==> r.name == p.name
    ensures u.category.Some? ==> r.category == u.category.value
    ensures u.category.None? ==> r.category == p.category
    ensures u.price.Some? ==> r.price == u.price.value
    ensures u.price.None? ==> r.price == p.price
    ensures u.stock.Some? ==> r.stock == u.stock.value
    ensures u.stock.None? ==> r.stock == p.stock
    ensures u.minStock.Some? ==> r.minStock == u.minStock.value
    ensures u.minStock.None? ==> r.minStock == p.minStock
    ensures u.description.Some? ==> r.description == u.description.value
    ensures u.description.None? ==> r.description == p.description
    ensures u.barcode.Some? ==> r.barcode == u.barcode.value
    ensures u.barcode.None? ==> r.barcode == p.barcode
    ensures u.supplier.Some? ==> r.supplier == u.supplier.value
    ensures u.supplier.None? ==> r.supplier == p.supplier
    ensures u.lastStockIn.Some? ==> r.lastStockIn == u.lastStockIn.value
    ensures u.lastStockIn.None? ==> r.lastStockIn == p.lastStockIn
    ensures u.lastUpdated.Some? ==> r.lastUpdated == u.lastUpdated.value
    ensures u.lastUpdated.None? ==> r.lastUpdated == p.lastUpdated
  {
    Product(
      u.id.GetOr(p.id), u.name.GetOr(p.name), u.category.GetOr(p.category),
      u.price.GetOr(p.price), u.stock.GetOr(p.stock), u.minStock.GetOr(p.minStock),
      u.description.GetOr(p.description), u.barcode.GetOr(p.barcode),
      u.supplier.GetOr(p.supplier), u.lastStockIn.GetOr(p.lastStockIn),
      u.lastUpdated.GetOr(p.lastUpdated))
  }

  /** An empty update leaves the record as it is. */
  lemma MergeNothing(p: Product)
    ensures Merge(p, NoChanges) == p
  {
  }

  /** Applying the same update twice is the same as applying it once. */
  lemma MergeIdempotent(p: Product, u: ProductPatch)
    ensures Merge(Merge(p, u), u) == Merge(p, u)
  {
  }

  /** An update without `id` or `stock` keeps the record's identity and stock. */
  lemma MergeKeepsIdentity(p: Product, u: ProductPatch)
    requires u.id.None? && u.stock.None?
    ensures Merge(p, u).id == p.id && Merge(p, u).stock == p.stock
  {
  }

  /** An order touches stock when its `productId` is truthy and names an existing product. */
  predicate BooksStock(ps: seq<Product>, o: Order): (b: bool)
    ensures b <==> (o.productId.Some? && o.productId.value != 0
                    && exists i :: 0 <= i < |ps| && ps[i].id == o.productId.value)
  {
    o.productId.Some? && o.productId.value != 0 && IndexOf(ps, o.productId.value) >= 0
  }

  /** Splicing out position `i` removes exactly that record, and with distinct ids its id is gone. */
  lemma RemoveAt(ps: seq<Product>, i: int)
    requires 0 <= i < |ps|
    ensures multiset(ps[..i] + ps[i + 1..]) + multiset{ps[i]} == multiset(ps)
    ensures Distinct(ProductIds(ps)) ==> forall p :: p in ps[..i] + ps[i + 1..] ==> p.id != ps[i].id
  {
    var rest := ps[..i] + ps[i + 1..];
    assert ps == ps[..i] + [ps[i]] + ps[i + 1..];
    if Distinct(ProductIds(ps)) {
      forall j | 0 <= j < |rest|
        ensures rest[j].id != ps[i].id
      {
        var k := if j < i then j else j + 1;
        assert rest[j] == ps[k];
        assert ProductIds(ps)[k] != ProductIds(ps)[i];
      }
    }
  }

  /** The three persisted lists. */
  datatype Snapshot = Snapshot(products: seq<Product>, orders: seq<Order>, movements: seq<Movement>)

  class DataManager {
    var products: seq<Product>
    var orders: seq<Order>
    var movements: seq<Movement>

    /** The lists as the page starts with them: the seed data or a restored snapshot. */
    constructor (initial: Snapshot)
      ensures products == initial.products && orders == initial.orders && movements == initial.movements
    {
      products, orders, movements := initial.products, initial.orders, initial.movements;
    }

    /** `saveToLocalStorage`: the three lists as stored. */
    function Save(): (s: Snapshot)
      reads this
      ensures s.products == products && s.orders == orders && s.movements == movements
    {
      Snapshot(products, orders, movements)
    }

    /** Saving and then loading the three saved lists leaves the manager as it was. */
    method SaveThenLoad() returns (saved: Snapshot)
      modifies this
      ensures saved == old(Save())
      ensures Save() == saved
    {
      saved := Save();
      Load(Some(saved.products), Some(saved.orders), Some(saved.movements));
    }

    /** `loadFromLocalStorage`: each stored list that is present replaces the current one. */
    method Load(savedProducts: Option<seq<Product>>, savedOrders: Option<seq<Order>>, savedMovements: Option<seq<Movement>>)
      modifies this
      ensures products == savedProducts.GetOr(old(products))
      ensures orders == savedOrders.GetOr(old(orders))
      ensures movements == savedMovements.GetOr(old(movements))
      ensures savedProducts.Some? && savedOrders.Some? && savedMovements.Some? ==>
        Save() == Snapshot(savedProducts.value, savedOrders.value, savedMovements.value)
    {
      if savedProducts.Some? { products := savedProducts.value; }
      if savedOrders.Some? { orders := savedOrders.value; }
      if savedMovements.Some? { movements := savedMovements.value; }
    }

    /**
      * `addProduct`: appends a copy of the input under id max+1, dated `today`,
      * with the threshold defaulted. `Math.max` of no ids is `-Infinity`, so the
      * catalogue must not be empty.
      */
    method AddProduct(input: ProductInput, today: string) returns (created: Product)
      requires |products| > 0
      modifies this
      ensures created == Product(NextId(ProductIds(old(products))), input.name, input.category,
        input.price, input.stock, DefaultMinStock(input.minStock), input.description,
        input.barcode, input.supplier, today, "")
      ensures forall i :: 0 <= i < |old(products)| ==> old(products)[i].id < created.id
      ensures products == old(products) + [created]
      ensures orders == old(orders) && movements == old(movements)
      ensures Distinct(ProductIds(old(products))) ==> Distinct(ProductIds(products))
      ensures TotalStock(products) == old(TotalStock(products)) + input.stock
    {
      var newId := NextId(ProductIds(products));
      created := Product(newId, input.name, input.category, input.price, input.stock,
        DefaultMinStock(input.minStock), input.description, input.barcode, input.supplier, today, "");
      NextIdKeepsDistinct(ProductIds(products));
      assert ProductIds(products + [created]) == ProductIds(products) + [newId];
      TotalStockAppend(products, created);
      products := products + [created];
    }

    /** `updateProduct(id, updates)`: merges the update into the first record with that id, in place. */
    method UpdateProduct(id: int, patch: ProductPatch) returns (updated: Option<Product>)
      modifies this
      ensures old(IndexOf(products, id)) < 0 ==> updated == None && products == old(products)
      ensures old(IndexOf(products, id)) >= 0 ==>
        && updated == Some(Merge(old(products)[old(IndexOf(products, id))], patch))
        && products == old(products)[old(IndexOf(products, id)) := updated.value]
      ensures |products| == |old(products)|
      ensures orders == old(orders) && movements == old(movements)
    {
      var i := IndexOf(products, id);
      if i < 0 {
        return None;
      }
      var merged := Merge(products[i], patch);
      products := products[i := merged];
      updated := Some(merged);
    }

    /** `deleteProduct(id)`: splices out the first record with that id, keeping the others in order. */
    method DeleteProduct(id: int) returns (deleted: Option<Product>)
      modifies this
      ensures old(IndexOf(products, id)) < 0 ==> deleted == None && products == old(products)
      ensures old(IndexOf(products, id)) >= 0 ==>
        var i := old(IndexOf(products, id));
        && deleted == Some(old(products)[i])
        && products == old(products)[..i] + old(products)[i + 1..]
        && multiset(products) + multiset{deleted.value} == multiset(old(products))
        && TotalStock(products) == old(TotalStock(products)) - deleted.value.stock
      ensures deleted.Some? && Distinct(ProductIds(old(products))) ==>
        forall j :: 0 <= j < |products| ==> products[j].id != id
      ensures orders == old(orders) && movements == old(movements)
    {
      var i := IndexOf(products, id);
      if i < 0 {
        return None;
      }
      deleted := Some(products[i]);
      TotalStockRemove(products, i);
      RemoveAt(products, i);
      products := products[..i] + products[i + 1..];
    }

    /**
      * `addStockMovement`: prepends the movement under id max+1, dated `now`.
      * The log must not be empty (`Math.max` of no ids is `-Infinity`).
      */
    method AddStockMovement(m: Movement, now: string) returns (created: Movement)
      requires |movements| > 0
      modifies this
      ensures created == m.(id := NextId(MovementIds(old(movements))), date := now)
      ensures forall i :: 0 <= i < |old(movements)| ==> old(movements)[i].id < created.id
      ensures movements == [created] + old(movements)
      ensures Distinct(MovementIds(old(movements))) ==> Distinct(MovementIds(movements))
      ensures products == old(products) && orders == old(orders)
    {
      var newId := NextId(MovementIds(movements));
      created := m.(id := newId, date := now);
      NextIdKeepsDistinct(MovementIds(movements));
      assert MovementIds([created] + movements) == [newId] + MovementIds(movements);
      movements := [created] + movements;
    }

    /**
      * `updateStock(productId, newStock, type, notes)`: sets the first matching
      * product's stock and books one movement from the old stock to the new one.
      */
    method UpdateStock(productId: int, newStock: int, kind: string, notes: string, now: string)
      returns (updated: Option<Product>)
      requires IndexOf(products, productId) >= 0 ==> |movements| > 0
      modifies this
      ensures old(IndexOf(products, productId)) < 0 ==>
        updated == None && products == old(products) && movements == old(movements)
      ensures old(IndexOf(products, productId)) >= 0 ==>
        var i := old(IndexOf(products, productId));
        var before := old(products)[i];
        && updated == Some(before.(stock := newStock))
        && products == old(products)[i := updated.value]
        && |movements| == |old(movements)| + 1 && movements[1..] == old(movements)
        && movements[0] == Movement(NextId(MovementIds(old(movements))), productId, before.name, kind,
             newStock - before.stock, before.stock, newStock, now, notes, None)
        && Balanced(movements[0]) && movements[0].currentStock == products[i].stock
        && TotalStock(products) == old(TotalStock(products)) + movements[0].quantity
      ensures orders == old(orders)
    {
      var i := IndexOf(products, productId);
      if i < 0 {
        return None;
      }
      var product := products[i];
      var previousStock := product.stock;
      var quantity := newStock - previousStock;
      var changed := product.(stock := newStock);
      TotalStockReplace(products, i, changed);
      products := products[i := changed];
      var _ := AddStockMovement(
        Movement(0, productId, product.name, kind, quantity, previousStock, newStock, "", notes, None), now);
      updated := Some(changed);
    }

    /**
      * `addStock(productId, quantity, supplier, notes)`: raises the first matching
      * product's stock by `quantity`, stamps `lastStockIn` and books an `in` movement.
      */
    method AddStock(productId: int, quantity: int, supplier: string, notes: string, today: string, now: string)
      returns (updated: Option<Product>)
      requires IndexOf(products, productId) >= 0 ==> |movements| > 0
      modifies this
      ensures old(IndexOf(products, productId)) < 0 ==>
        updated == None && products == old(products) && movements == old(movements)
      ensures old(IndexOf(products, productId)) >= 0 ==>
        var i := old(IndexOf(products, productId));
        var before := old(products)[i];
        && updated == Some(before.(stock := before.stock + quantity, lastStockIn := today))
        && products == old(products)[i := updated.value]
        && |movements| == |old(movements)| + 1 && movements[1..] == old(movements)
        && movements[0] == Movement(NextId(MovementIds(old(movements))), productId, before.name, "in",
             quantity, before.stock, before.stock + quantity, now,
             if notes == "" then "입고" else notes, Some(supplier))
        && Balanced(movements[0]) && movements[0].currentStock == products[i].stock
        && TotalStock(products) == old(TotalStock(products)) + quantity
      ensures orders == old(orders)
    {
      var i := IndexOf(products, productId);
      if i < 0 {
        return None;
      }
      var product := products[i];
      var previousStock := product.stock;
      var changed := product.(stock := product.stock + quantity, lastStockIn := today);
      TotalStockReplace(products, i, changed);
      products := products[i := changed];
      var note := if notes == "" then "입고" else notes;
      var booked := AddStockMovement(
        Movement(0, productId, product.name, "in", quantity, previousStock, changed.stock, "", note, Some(supplier)), now);
      assert movements[0] == booked;
      updated := Some(changed);
    }

    /**
      * `addOrder(order)`: prepends the order under id max+1, stamped `now` and
      * completed; an order for an existing product takes its quantity out of
      * stock through one `out` movement, with no floor at zero.
      */
    method AddOrder(order: Order, now: string) returns (created: Order)
      requires |orders| > 0
      requires BooksStock(products, order) ==> |movements| > 0
      modifies this
      ensures created == order.(id := NextId(OrderIds(old(orders))), time := now, status := "완료")
      ensures forall i :: 0 <= i < |old(orders)| ==> old(orders)[i].id < created.id
      ensures orders == [created] + old(orders)
      ensures Distinct(OrderIds(old(orders))) ==> Distinct(OrderIds(orders))
      ensures !old(BooksStock(products, order)) ==> products == old(products) && movements == old(movements)
      ensures old(BooksStock(products, order)) ==>
        var i := old(IndexOf(products, order.productId.value));
        var before := old(products)[i];
        && products == old(products)[i := before.(stock := before.stock - order.quantity)]
        && |movements| == |old(movements)| + 1 && movements[1..] == old(movements)
        && movements[0] == Movement(NextId(MovementIds(old(movements))), order.productId.value, before.name, "out",
             -order.quantity, before.stock, before.stock - order.quantity, now, "고객 구매", None)
        && Balanced(movements[0]) && movements[0].currentStock == products[i].stock
        && TotalStock(products) == old(TotalStock(products)) - order.quantity
    {
      var newId := NextId(OrderIds(orders));
      created := order.(id := newId, time := now, status := "완료");
      NextIdKeepsDistinct(OrderIds(orders));
      assert OrderIds([created] + orders) == [newId] + OrderIds(orders);
      orders := [created] + orders;
      if order.productId.Some? && order.productId.value != 0 {
        var product := Find(products, order.productId.value);
        if product.Some? {
          var _ := UpdateStock(order.productId.value, product.value.stock - order.quantity, "out", "고객 구매", now);
        }
      }
    }
  }

  /**
    * The seed log's second movement is an `out` of 5 recorded with a positive
    * quantity while the stock goes from 13 to 8, so it does not balance.
    */
  lemma SeedOutMovementUnbalanced()
    ensures var m := Movement(2, 3, "초코파이", "out", 5, 13, 8, "2024-11-15 14:25", "고객 구매", None);
      !Balanced(m) && m.previousStock - m.quantity == m.currentStock
  {
  }

  /**
    * `updateProduct` with a `stock` field sets the stock and books no movement,
    * so the log no longer ends at the product's stock.
    */
  method StockEditBooksNothing(d: DataManager, id: int, s: int) returns (i: int)
    requires IndexOf(d.products, id) >= 0
    modifies d
    ensures i == old(IndexOf(d.products, id)) && 0 <= i < |d.products|
    ensures d.products[i].stock == s && d.products[i].id == old(d.products[i].id)
    ensures d.movements == old(d.movements)
  {
    i := IndexOf(d.products, id);
    var _ := d.UpdateProduct(id, NoChanges.(stock := Some(s)));
  }
}
