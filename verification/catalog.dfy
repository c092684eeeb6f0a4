/** The three record kinds the store keeps, and the lookups and id allocation shared by the ledger. */
module Catalog {
  import opened Wrappers
  import opened Seqs

  /** A catalogue entry. Dates are opaque strings; prices are whole won. */
  datatype Product = Product(
    id: int,
    name: string,
    category: string,
    price: int,
    stock: int,
    minStock: int,
    description: string,
    barcode: string,
    supplier: string,
    lastStockIn: string,
    lastUpdated: string)

  /** A sale. `productId` is absent for a free-form order. */
  datatype Order = Order(
    id: int,
    product: string,
    productId: Option<int>,
    quantity: int,
    amount: int,
    time: string,
    status: string)

  /** One audited change of a product's stock. `quantity` is the signed delta. */
  datatype Movement = Movement(
    id: int,
    productId: int,
    productName: string,
    kind: string,
    quantity: int,
    previousStock: int,
    currentStock: int,
    date: string,
    notes: string,
    supplier: Option<string>)

  /** The audit equation every movement the ledger books satisfies. */
  predicate Balanced(m: Movement) {
    m.previousStock + m.quantity == m.currentStock
  }

  /** `Math.max(...ids)` on a non-empty list. */
  function Max(ids: seq<int>): (r: int)
    requires |ids| > 0
    ensures r in ids
    ensures forall i :: 0 <= i < |ids| ==> ids[i] <= r
  {
    if |ids| == 1 then ids[0]
    else
      var m := Max(ids[1..]);
      if ids[0] < m then m else ids[0]
  }

  /** The id the ledger allocates: one above the largest in use, hence above every id in use. */
  function NextId(ids: seq<int>): (r: int)
    requires |ids| > 0
    ensures r - 1 in ids
    ensures forall i :: 0 <= i < |ids| ==> ids[i] < r
  {
    Max(ids) + 1
  }

  /** The ids of the catalogue, the order list and the movement log, as `Math.max` reads them. */
  function ProductIds(ps: seq<Product>): seq<int> {
    Ids(ps, (p: Product) => p.id)
  }

  function OrderIds(os: seq<Order>): seq<int> {
    Ids(os, (o: Order) => o.id)
  }

  function MovementIds(ms: seq<Movement>): seq<int> {
    Ids(ms, (m: Movement) => m.id)
  }

  /** An id allocated by `NextId` keeps a list of distinct ids distinct, at either end. */
  lemma NextIdKeepsDistinct(ids: seq<int>)
    requires |ids| > 0
    ensures Distinct(ids) ==> Distinct(ids + [NextId(ids)])
    ensures Distinct(ids) ==> Distinct([NextId(ids)] + ids)
  {
  }

  /** `products.findIndex(p => p.id === id)`: the first position holding `id`, or -1. */
  function IndexOf(ps: seq<Product>, id: int): (r: int)
    ensures -1 <= r < |ps|
    ensures r == -1 <==> forall i :: 0 <= i < |ps| ==> ps[i].id != id
    ensures 0 <= r ==> ps[r].id == id && forall i :: 0 <= i < r ==> ps[i].id != id
  {
    if ps == [] then -1
    else if ps[0].id == id then 0
    else
      var k := IndexOf(ps[1..], id);
      if k < 0 then -1 else k + 1
  }

  /** `products.find(p => p.id === id)`: the first product holding `id`. */
  function Find(ps: seq<Product>, id: int): (r: Option<Product>)
    ensures r.None? <==> forall i :: 0 <= i < |ps| ==> ps[i].id != id
    ensures r.Some? ==>
      exists k :: 0 <= k < |ps| && r.value == ps[k] && r.value.id == id && forall j :: 0 <= j < k ==> ps[j].id != id
  {
    var k := IndexOf(ps, id);
    if k < 0 then None else Some(ps[k])
  }

  /** When ids are distinct, the product `IndexOf` finds is the only one with that id. */
  lemma IndexOfUnique(ps: seq<Product>, id: int, j: int)
    requires Distinct(ProductIds(ps))
    requires 0 <= j < |ps| && ps[j].id == id
    ensures IndexOf(ps, id) == j
  {
    var k := IndexOf(ps, id);
    assert ProductIds(ps)[k] == ProductIds(ps)[j];
  }
}
