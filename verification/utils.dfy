/** `Utils.getStockStatus` and `Utils.getMovementTypeText`. */
module Utils {
  import opened Wrappers

  /** The badge `getStockStatus` returns: CSS class, label and severity. */
  datatype StockStatus = StockStatus(cssClass: string, text: string, level: string)

  const Danger := StockStatus("low-stock", "부족", "danger")
  const Warning := StockStatus("medium-stock", "보통", "warning")
  const Sufficient := StockStatus("normal-stock", "충분", "success")

  /**
    * `getStockStatus(stock, minStock = 10)`. The source compares `stock` with
    * `minStock * 0.5`; on integers that is exactly `2 * stock <= minStock`.
    * `None` stands for an omitted threshold.
    */
  function GetStockStatus(stock: int, minStock: Option<int>): (r: StockStatus)
    ensures r == Danger || r == Warning || r == Sufficient
    ensures var m := minStock.GetOr(10);
      && (r == Danger <==> 2 * stock <= m)
      && (r == Sufficient <==> stock > m && 2 * stock > m)
  {
    var m := minStock.GetOr(10);
    if 2 * stock <= m then Danger
    else if stock <= m then Warning
    else Sufficient
  }

  /**
    * With a non-negative threshold the badge is "sufficient" exactly when the
    * product is not low on stock (`stock > minStock`), the test `getStats` uses.
    */
  lemma StatusAgreesWithLowStock(stock: int, minStock: int)
    requires minStock >= 0
    ensures GetStockStatus(stock, Some(minStock)) != Sufficient <==> stock <= minStock
  {
  }

  /** Raising the stock never makes the badge more severe. */
  lemma StatusMonotone(s1: int, s2: int, minStock: Option<int>)
    requires s1 <= s2
    ensures GetStockStatus(s1, minStock) == Sufficient ==> GetStockStatus(s2, minStock) == Sufficient
    ensures GetStockStatus(s2, minStock) == Danger ==> GetStockStatus(s1, minStock) == Danger
  {
  }

  /** `getMovementTypeText(type)`: the Korean label of `in`, `out` and `adjust`; any other type unchanged. */
  function MovementTypeText(kind: string): (r: string)
    ensures kind in ["in", "out", "adjust"] ==> r != kind && r != ""
    ensures kind !in ["in", "out", "adjust"] ==> r == kind
  {
    if kind == "in" then "입고"
    else if kind == "out" then "출고"
    else if kind == "adjust" then "조정"
    else kind
  }
}
