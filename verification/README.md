# Unmanned store stock ledger, in Dafny

This project models the stock ledger of an unmanned-store back office, together
with the rules that the inventory page and the product page apply to it.

- `DataManager` owns three lists: the product catalogue, the order list and the
  stock-movement log. It adds, updates and deletes products. It changes stock
  through `updateStock`, `addStock` and `addOrder`. Each of those books an audit
  movement recording the stock before and after, plus the signed quantity.
- The read-only queries (`getStats`, `getCategoryStats`, `searchProducts`,
  `sortProducts`) summarise and filter the catalogue.
- The inventory page handles two forms:
  - stock adjustment: an increase, or a decrease floored at zero;
  - stock receipt.
  
  It also computes the dashboard counters, the per-category report, the table
  filter, the "ten most recent movements" view and the chart palette.
- The product page validates the product form, filters the product table,
  counts the stat cards and totals a product's sales history.

Layout:

| file | module | what |
|---|---|---|
| `wrappers.dfy` | `Wrappers` | `Option` |
| `text.dfy` | `Text` | ASCII lower-casing and substring search (`String.prototype.includes`) |
| `seqs.dfy` | `Seqs` | `Filter` (`Array.prototype.filter`), subsequences, reversal, counting lemmas |
| `catalog.dfy` | `Catalog` | the product, order and movement records; the max+1 id rule; `findIndex`/`find` by id |
| `stats.dfy` | `Stats` | stock and value sums, distinct categories, `getStats`, `getCategoryStats` |
| `search.dfy` | `Search` | `searchProducts` and its stock buckets, `sortProducts` |
| `utils.dfy` | `Utils` | `Utils.getStockStatus`, `Utils.getMovementTypeText` |
| `ledger.dfy` | `Ledger` | the `DataManager` class and its in-place operations |
| `inventory.dfy` | `Inventory` | the inventory page's handlers, report, dashboard and views |
| `products_page.dfy` | `ProductsPage` | the product page's validator, filter, stat cards and history totals |

The model keeps the following JavaScript behaviours:

- `Math.max(...ids) + 1` is `Catalog.NextId`.
- A falsy `minStock` becomes 10. An explicit 0 is falsy, so it also becomes 10.
- Empty `addStock` notes default to "입고".
- The `* 0.5` danger threshold of `getStockStatus` is stated exactly as
  `2 * stock <= minStock`.
- `parseInt`/`parseFloat` producing `NaN` is modelled as `None`.
- `unshift` becomes a prepend, `push` an append and `splice(i, 1)` a removal.
- A lookup by id finds the first match, as `find`/`findIndex` do.

## Model

| member | source | states |
|---|---|---|
| Catalog.Max | JS/data.js:221 | `Math.max` of a non-empty list: an element of the list that no element exceeds |
| Catalog.NextId | JS/data.js:221 | the new id is one more than an id already in the list and exceeds every existing id |
| Catalog.NextIdKeepsDistinct | JS/data.js:221 | appending or prepending the max+1 id keeps a list of distinct ids distinct |
| Catalog.IndexOf | JS/data.js:233 | `findIndex` by id: -1 exactly when no record has the id, otherwise the first record with it |
| Catalog.Find | JS/data.js:216-218 | `getProductById`: nothing exactly when no record has the id, otherwise the first record of the list with that id |
| Catalog.IndexOfUnique | JS/data.js:233 | when ids are distinct, the position of any record holding the id is the one found |
| Ledger.DefaultMinStock | JS/data.js:227 | the threshold is never 0; a supplied non-zero value is kept; missing, NaN or 0 give 10 |
| Ledger.Merge | JS/data.js:235 | `{ ...record, ...updates }`: every field the update supplies takes the update's value, and every field it does not supply keeps the record's |
| Ledger.BooksStock | JS/data.js:312-314 | an order touches stock exactly when its product id is set and non-zero and some product has that id |
| Ledger.MergeNothing | JS/data.js:235 | spreading an empty update over a record leaves it unchanged |
| Ledger.MergeIdempotent | JS/data.js:235 | spreading the same update twice equals spreading it once |
| Ledger.MergeKeepsIdentity | JS/data.js:235 | an update without `id` or `stock` keeps the record's id and stock |
| Ledger.DataManager.constructor | JS/data.js:1-210 | the manager starts with the given three lists |
| Ledger.DataManager.SaveThenLoad | JS/data.js:436-456 | saving the three lists and loading them back leaves the manager exactly as it was, and the returned snapshot is the state before the call |
| Ledger.DataManager.Load | JS/data.js:442-456 | each stored list that is present replaces the current one and the others stay; loading all three restores the saved snapshot |
| Ledger.DataManager.AddProduct | JS/data.js:220-230 | the new product has id max+1, larger than every existing id; it carries the input's fields, the defaulted threshold and today's date; it is appended; distinct ids stay distinct; total stock grows by its stock; orders and movements are unchanged |
| Ledger.DataManager.UpdateProduct | JS/data.js:232-239 | an unknown id returns nothing and changes nothing; otherwise the first matching record is replaced in place by the merge of the update over it, with length and other positions kept |
| Ledger.DataManager.DeleteProduct | JS/data.js:241-248 | an unknown id returns nothing and changes nothing; otherwise exactly the first matching record is removed and returned, the others keep their order, the multiset loses exactly it and total stock drops by its stock; with distinct ids no record with that id remains |
| Ledger.SeedOutMovementUnbalanced | JS/data.js:174-183 | the seed log's second movement (`out`, quantity +5, stock 13 to 8) does not balance: previous stock minus the quantity gives the current stock |
| Ledger.StockEditBooksNothing | JS/data.js:232-239 | an `updateProduct` patch carrying `stock` sets the product's stock to it and leaves the movement log unchanged |
| Ledger.RemoveAt | JS/data.js:244 | `splice(i, 1)` removes exactly the record at i from the multiset, and when ids are distinct no remaining record has its id |
| Ledger.DataManager.AddStockMovement | JS/data.js:327-336 | the movement gets id max+1, larger than every logged id, and the timestamp; it is prepended, so the log grows by one; distinct ids stay distinct |
| Ledger.DataManager.UpdateStock | JS/data.js:251-272 | an unknown product returns nothing and books nothing; otherwise the product's stock becomes the new stock and one movement is prepended with previous = old stock, current = new stock and quantity = new − old; the movement balances and total stock changes by its quantity |
| Ledger.DataManager.AddStock | JS/data.js:274-294 | an unknown product returns nothing and books nothing; otherwise the stock rises by exactly `quantity` and `lastStockIn` is stamped; an `in` movement balancing previous + quantity = current is prepended, with notes defaulting to "입고" and the supplier recorded |
| Ledger.DataManager.AddOrder | JS/data.js:301-320 | the order is prepended with id max+1, the timestamp and status "완료"; an order naming an existing product lowers that product's stock by exactly its quantity, with no floor, through one balanced `out` movement prepended to the log with id max+1 of the log, the product's name, −quantity, the old and new stock, the timestamp and the notes "고객 구매"; any other order leaves products and movements unchanged |
| Stats.TotalsNonNegative | JS/data.js:341-342 | Σ stock and Σ stock × price are non-negative when no stock or price is negative |
| Stats.TotalStockReplace | JS/data.js:341 | replacing one record changes the stock sum by the difference of the two stocks |
| Stats.TotalStockAppend | JS/data.js:341 | appending a record adds its stock to the sum |
| Stats.TotalStockRemove | JS/data.js:341 | removing a record subtracts its stock from the sum |
| Stats.Categories | JS/data.js:344 | the distinct categories: no repeats, exactly the categories present, at most one per product |
| Stats.TotalsOfAbsent | JS/data.js:366-381 | a category no product has totals to zero |
| Stats.SumTotalsSnoc | JS/data.js:366-381 | adding a product adds its count, stock and value to the sum over categories that include its own |
| Stats.CategoryTotalsSum | JS/data.js:366-381 | summed over the distinct categories, the per-category counts, stocks and values give the product count, the total stock and the total value |
| Stats.GetStats | JS/data.js:339-363 | product count; total stock is Σ stock and total value Σ stock × price; the categories are `Categories`, in first-appearance order; the low-stock list is the products at or below their threshold, in catalogue order, and its size is the low-stock count; the categories are distinct and exactly those present; today's order count is at most the order count |
| Stats.SnocFacts | JS/data.js:369-378 | one more product adds its category to the set, appends it to the first-appearance list when new, and adds itself to its category's totals only |
| Stats.GetCategoryStats | JS/data.js:366-381 | the loop builds one entry per category present, each equal to that category's count, stock sum and value sum; `keys` records the order in which entries were created, which is the order of first appearance |
| Seqs.Filter | JS/data.js:343 | `Array.prototype.filter`: at most as long as the input, a subsequence of it, holding only elements that pass and every input element that passes |
| Seqs.FilterMultiplicity | JS/data.js:343 | an element that passes is kept as many times as it occurs; any other element is dropped |
| Seqs.FilterSnoc | JS/data.js:343 | filtering a list with one more element at the end filters that element last |
| Seqs.TakeLast | JS/inventory.js:724 | `slice(-k)` for a positive k: the last k elements, or all of them when fewer |
| Seqs.Reverse | JS/inventory.js:724 | `reverse()`: same length, element i being element length − 1 − i of the input |
| Text.Lower | JS/data.js:390 | `toLowerCase`: same length, each ASCII capital replaced by its small letter and every other character kept |
| Text.Contains | JS/data.js:390 | `includes`: true exactly when the needle sits in the haystack at some position |
| Search.SearchProducts | JS/data.js:384-416 | the result is a subsequence of the catalogue; a product is in it exactly when it matches the text (if any), the category (if any) and the stock level (if a known one) |
| Search.LevelExactlyOne | JS/data.js:398-412 | with a non-negative threshold a product is in exactly one of the low, medium and high buckets |
| Search.LevelsOverlapBelowZero | JS/data.js:398-412 | with a negative threshold a product can fall into two buckets at once |
| Search.SearchBucketsPartition | JS/data.js:398-412 | with non-negative thresholds the low, medium and high searches together have as many results as the search without a level |
| Search.UnknownLevelPassesAll | JS/data.js:396-413 | an unrecognised level filters nothing out |
| Search.Insert | JS/data.js:420 | inserting adds exactly the element to the multiset |
| Search.InsertSorted | JS/data.js:420 | inserting into a sorted list keeps it sorted |
| Search.SortBy | JS/data.js:420 | the result is a sorted permutation of the input |
| Search.SortProducts | JS/data.js:419-433 | a permutation of the input: ascending by price, descending by stock, by collation order of name or category; an unknown key keeps the order |
| Utils.GetStockStatus | JS/data.js:490-498 | the status is one of danger, warning and sufficient; danger exactly when stock is at most half the threshold; sufficient exactly when above both; the threshold defaults to 10 |
| Utils.StatusAgreesWithLowStock | JS/data.js:490-498 | for a non-negative threshold, the status is other than sufficient exactly when stock is at or below the threshold |
| Utils.StatusMonotone | JS/data.js:490-498 | more stock never gives a worse status |
| Utils.MovementTypeText | JS/data.js:501-508 | the three known kinds get a non-empty label different from the kind; any other kind is shown as is |
| Inventory.Adjust | JS/inventory.js:494-558 | rejected exactly when the product or a positive quantity is missing; not found exactly when no product has the id; otherwise the first match gets stock + q (`adjustment_in`, +q) or max(0, stock − q) (`adjustment_out`, −q); the movement balances and ends at the new stock |
| Inventory.AdjustPreviousStock | JS/inventory.js:529-540 | the recorded previous stock equals the true one exactly when it was an increase or the decrease did not hit the floor |
| Inventory.AdjustFlooredExample | JS/inventory.js:524-540 | decreasing 5 from 3 leaves 0 but records 5 as the previous stock |
| Inventory.Receive | JS/inventory.js:561-620 | the same rejection and not-found cases; otherwise the stock rises by the quantity, and a balanced `receive` movement records the stock captured before the update and the supplier |
| Inventory.OutcomeConservesStock | JS/inventory.js:529-545 | when the recorded quantity is the real change, applying the outcome changes total stock by the recorded quantity |
| Inventory.HandlersConserveStock | JS/inventory.js:517-606 | a receipt always changes total stock by its recorded quantity; an adjustment does too unless the floor cut it short |
| Inventory.InventoryPage.constructor | JS/inventory.js:509 | the page starts from the product list it is given and no movements recorded |
| Inventory.InventoryPage.ProcessStockAdjustment | JS/inventory.js:494-558 | the handler's outcome is `Adjust` of the list before it; when applied, the found record is replaced in place and its movement recorded, and otherwise nothing changes |
| Inventory.InventoryPage.ProcessStockReceive | JS/inventory.js:561-620 | the handler's outcome is `Receive` of the list before it; when applied, the found record is replaced in place and its movement recorded, and otherwise nothing changes |
| Inventory.Tally | JS/inventory.js:827-836 | one product adds 1 to the count and its stock and value to the sums; it adds 1 to the sold-out counter when its stock is 0, otherwise 1 to the low counter when its stock is at or below its threshold; at most one of the two counters moves |
| Inventory.BreakdownOf | JS/inventory.js:813-840 | a category's sold-out counter is the number of its products with stock 0; its low counter is the number with non-zero stock at or below the threshold; the two counters together are at most its count |
| Inventory.BreakdownAgreesWithTotals | JS/inventory.js:813-840 | a category's count, stock sum and value sum are the same as `getCategoryStats` gives |
| Inventory.BreakdownCountsSum | JS/inventory.js:813-840 | the per-category counts sum to the number of products |
| Inventory.CountSumIsTotals | JS/inventory.js:813-840 | the counts summed over categories equal the count of the summed totals |
| Inventory.BreakdownSnoc | JS/inventory.js:816-837 | one more product adds itself to its own category's line only |
| Inventory.BreakdownAbsent | JS/inventory.js:813-840 | a category no product has gets an all-zero line |
| Inventory.GetCategoryBreakdown | JS/inventory.js:813-840 | the loop builds one line per category present, each equal to that category's breakdown, so its sold-out and low counters count the category's products with stock 0 and with non-zero stock at or below the threshold; `keys` records the order in which lines were created |
| Inventory.LoadDashboard | JS/inventory.js:67-94 | the low-stock card counts the products with 0 < stock ≤ threshold; the sold-out card counts those with stock 0; the two sets are disjoint, so together they are at most the product count; the stock value is Σ stock × price |
| Inventory.FilterInventoryTable | JS/inventory.js:192-222 | a subsequence of the list; a product is kept exactly when its lower-cased name or category contains the lower-cased term, and the category and status filters are empty or equal |
| Inventory.EmptyInventoryFilterShowsAll | JS/inventory.js:198-211 | with every filter empty the whole list is shown |
| Inventory.RecentMovements | JS/inventory.js:724 | at most ten movements: the last ten entries of the log, last entry first |
| Inventory.GenerateColors | JS/inventory.js:871-883 | exactly `count` colours, entry i being palette entry i mod 12 |
| ProductsPage.FindBarcodeClash | JS/products.js:388-389 | nothing exactly when every product either has another barcode or is the product being edited; otherwise a product with the barcode that is not the edited one |
| ProductsPage.ValidateIsFirstFailure | JS/products.js:356-396 | the form is rejected for a reason exactly when that check fails and every earlier check passes, and it is accepted exactly when no check fails |
| ProductsPage.EditKeepingOwnBarcode | JS/products.js:388-393 | editing a product whose barcode only it carries is accepted when the other fields are valid |
| ProductsPage.NewProductNeedsFreshBarcode | JS/products.js:388-393 | a new product whose other fields are valid and whose barcode another product carries is rejected as a duplicate |
| ProductsPage.FilterProducts | JS/products.js:189-212 | a subsequence of the list; a product is kept exactly when its lower-cased name or barcode contains the lower-cased term, and the category and status filters are empty or equal |
| ProductsPage.CategoryNarrows | JS/products.js:199-201 | choosing a category never shows more products than the same search with no category |
| ProductsPage.Validate | JS/products.js:356-396 | the form is accepted exactly when name, category and barcode are non-empty, price, stock and threshold are numbers ≥ 0, and every product holding the barcode is the one being edited; a rejection names a check that fails |
| ProductsPage.UpdateProductStats | JS/products.js:169-178 | the product count; the low card counts the products with stock ≤ threshold (sold-out ones included); the sold-out card counts those with stock 0 |
| ProductsPage.OutOfStockAmongLow | JS/products.js:171-172 | with non-negative thresholds the sold-out count is at most the low count |
| ProductsPage.LowCardsAgree | JS/products.js:171-172 | with non-negative stock and thresholds the product page's low count is the inventory dashboard's low count plus its sold-out count |
| ProductsPage.FirstItem | JS/products.js:489 | nothing exactly when no line carries the product id, otherwise the first line of the order with it |
| ProductsPage.HistoryAppend | JS/products.js:483-493 | the totals over two runs of orders are the sums of their totals |
| ProductsPage.HistoryWithoutProduct | JS/products.js:489-490 | orders without a line for the product total to zero |
| ProductsPage.OrderHistoryTotals | JS/products.js:483-534 | the accumulated quantity and amount equal Σ quantity and Σ price × quantity over each order's first line for the product |

## Left out

- Ledger.DataManager.AddProduct, Ledger.DataManager.AddStockMovement, Ledger.DataManager.AddOrder, Ledger.DataManager.UpdateStock, Ledger.DataManager.AddStock: these require the list that receives a new id to be non-empty. `Math.max` of no ids is `-Infinity`, and the record would get a non-integer id that the model does not represent.
- Ledger.DataManager.UpdateProduct, Ledger.DataManager.AddProduct: the only movement invariant stated is per operation. Each movement that `updateStock`, `addStock` and `addOrder` book balances (previous + quantity = current), and consecutive `updateStock` calls chain. The log as a whole does not account for the stock:
  - `updateProduct` with a `stock` field changes stock without booking a movement (`Ledger.StockEditBooksNothing`);
  - `addProduct` books no movement for the initial stock;
  - the seed log has an unbalanced `out` movement (`Ledger.SeedOutMovementUnbalanced`);
  - the seed log ends cola at 70 while the seed catalogue holds 45 (data.js:8 and data.js:168).
  
  So "a product's stock is the sum of its movement quantities" is not a property of the source and is not claimed.
- Ledger.DataManager.UpdateProduct: an update object that holds an explicit `undefined` for a field is not modelled. Each field is either supplied with a value or absent.
- Search.SortProducts: `localeCompare` is modelled as a caller-supplied integer rank, so the collation itself is abstract. The relative order of equal keys (sort stability) is not stated.
- Stats.GetCategoryStats: the plain object used as a dictionary is modelled as a map. In the source, a category named like an inherited `Object.prototype` member (`constructor`, `toString`, `__proto__`) finds the inherited value and gets no entry of its own; the model creates an ordinary entry. `keys` is the order of first appearance, whereas `Object.keys` lists integer-like names first; that enumeration order is not modelled.
- Inventory.GetCategoryBreakdown: the same dictionary simplification as for `getCategoryStats`. Categories named like inherited `Object.prototype` members get an ordinary entry here, and the `Object.keys` order of integer-like names is not modelled.
- Utils.MovementTypeText: the lookup object's inherited prototype keys (`toString` and the like) are not modelled.
- Stats.GetStats: `todaySales` and `todayOrders` test whether an order's time string contains today's date string. Dates are opaque strings here, so the contract states only the count bound.
- `getAllOrders` and `getAllStockMovements` sort by parsed dates. Date parsing is not modelled, so these two are left out.
- Dates and clocks (`new Date().toISOString()`, `toLocaleString`) are parameters (`today`, `now`).
- `Text.Lower` folds ASCII letters only. Unicode case mapping is not modelled.
- Prices are integers, and so are the form numbers after `parseInt`. The receiving form's `parseFloat` unit cost and the random variation in the stock-trend chart are floating point and left out.
- Form ids are compared with product ids as integers. A string-versus-number `===` mismatch would depend on `generateId` and `getProducts`, which are not part of this model.
- Inventory.Adjust, Inventory.Receive: the inventory page records movements with its own fields. It writes `newStock` where the ledger has `currentStock`, `reason` where the ledger has `notes` (adjustments), and adds `user: 'admin'` and, on receipts, `unitCost`. The model reuses the ledger's `Movement`: `currentStock` holds the page's `newStock`, `notes` holds the reason on adjustments and the notes on receipts, and `user` and `unitCost` are dropped. So `Balanced` and the stock equalities are stated of the page's `previousStock`/`quantity`/`newStock` triple. The page's tables read `newStock` and `reason || notes`, so a ledger-booked movement shows no new stock there; that rendering mismatch is not modelled.
- Ledger.DataManager.UpdateStock, Ledger.DataManager.AddStock: the JavaScript default arguments (`type = 'adjust'` and `notes = ''` for `updateStock`, `supplier = ''` and `notes = ''` for `addStock`) are not defaults here. Every argument is explicit, and a caller omitting one passes the default value itself.
- Inventory.RecentMovements: `getStockMovements` is not part of this model, so the order of the log it returns is unknown. The view shows the last ten entries last-first, which is the ten newest only when the log is in append order; on the ledger's own newest-first log (`unshift`) it would be the ten oldest, the oldest first.
- The page scripts call helpers that these files do not define: `getProducts`, `updateProductData`, `addStockMovement`, `generateId`, `removeProduct`, `addProduct`, `getOrders`, and the page-level `getStockStatus`. The model treats them as follows:
  - `getProducts` is the list held by the page or passed in;
  - `generateId` is a `freshId` parameter;
  - the page-level status helper is a function parameter;
  - the movements handed to `addStockMovement` are recorded in call order.
- `saveToLocalStorage`/`loadFromLocalStorage` are modelled as a snapshot and a restore. JSON serialisation, `resetData` and `location.reload` are left out.
- DOM rendering, HTML templates, modals, alerts, confirmations, charts and CSV download are left out. The alert in each handler and in the validator becomes a rejected outcome.
- `generateBarcode` (clock and randomness) is left out, and so are JS/main.js and JS/index.js, including `quickStockReplenish`.
- The order-history table's row markup is left out; only its footer totals are modelled.
