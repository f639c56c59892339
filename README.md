# Pharmacy stock management — a verified model

This is a Dafny model of the rules at the core of a pharmacy stock application. The application has two halves:

- **The backend** is an Express/TypeORM server. It keeps medicines, their stock batches, sales and supplier orders in a database.
- **The web client** is React. It shows a dashboard, a stock page, the sales history, a reports panel and the supplier-order page.

The model covers both halves. On the backend side it covers the bookkeeping the controllers do:

- Creating, editing and deleting a batch updates the medicine's cached `totalQuantity` and prices.
- Recording a sale checks and decrements batches item by item.
- Deleting a medicine cascades to its batches.
- Orders are totalled.
- The dashboard counts are computed.

On the client side it covers what the pages compute from the JSON they load:

- load-time defaults;
- stock totals and low-stock flags;
- expiry alerts and badges;
- search filters and date windows;
- newest-first sorting;
- revenue and averages;
- the CSV export;
- collection of order-form lines;
- the status buttons and delivery alerts of supplier orders.

How the model is organised:

- **Database.** The database is a class, `Store.Database`. It has one sequence field per table and one auto-increment counter per table, starting at 1.
- **Controllers.** Each controller endpoint is a method with `modifies db`. Its `ensures` states the whole new state.
- **Cache invariant.** The cached `totalQuantity` is meant to equal the sum of the medicine's batch quantities. This is `Store.CacheConsistent`. Lemmas show which operations preserve it and which break it.
- **Client pages.** These are pure functions over the loaded records, with lemmas connecting them to independent definitions. The exceptions are the loops of the dashboard scan and the order form, which are methods proved equal to specification functions.
- **Inputs from outside.** JavaScript's `new Date(s).getTime()` is a parameter `dateOf: string -> Option<int>`, where `None` is `NaN`. The clock (`now`, today's date, `Date.now()`) is also a parameter, as is any failure the database raises.
- **Numbers and defaults.** Amounts are integers. JavaScript's `||` defaulting is written out: `""` and `0` are falsy.
- **Strings.** `includes`, `startsWith`, `join` and `split` are defined on `seq<char>`.

## Model

Source paths are relative to the repository root.

| member | source | states |
|---|---|---|
| ClientRecords.NormalizeMedicine | Pharmacy_Stock_Management_App/src/components/Dashboard.tsx:48-57 | The loaded medicine always has a name, which is `Sans nom` exactly when the row's name is empty. `minStock` is never 0: it becomes 10 when the row's is 0. Null texts become `''`. Id and batches are kept. |
| Dashboard.ParseSafeDate | Pharmacy_Stock_Management_App/src/components/Dashboard.tsx:23-27 | There is no date exactly when the text is empty, `0000-00-00`, `0000-00-00 00:00:00` or unparseable. Otherwise the result is the parsed instant. |
| Dashboard.NormalizeBatches | Pharmacy_Stock_Management_App/src/components/Dashboard.tsx:36-46 | There is one normalised batch per row, in row order. |
| Dashboard.NormalizeAll | Pharmacy_Stock_Management_App/src/components/Dashboard.tsx:35-58 | There is one medicine per API row, with the load-time defaults and its normalised batches. |
| Dashboard.Classify | Pharmacy_Stock_Management_App/src/components/Dashboard.tsx:72-82 | A batch raises an alert only when it has an expiry date and a positive quantity. |
| Dashboard.ClassifyMeans | Pharmacy_Stock_Management_App/src/components/Dashboard.tsx:62-82 | Expired holds iff expiry < today and quantity > 0. Expiring holds iff today ≤ expiry ≤ today + 45 days and quantity > 0. The `else if` makes the two exclusive. |
| Dashboard.BatchEntries | Pharmacy_Stock_Management_App/src/components/Dashboard.tsx:71-83 | The entries of one medicine all have the requested class and carry the medicine's name. There is at most one per batch. |
| Dashboard.ScanBatches | Pharmacy_Stock_Management_App/src/components/Dashboard.tsx:71-83 | The inner batch loop pushes exactly the specified expired and expiring entries of one medicine, in batch order. |
| Dashboard.Entries | Pharmacy_Stock_Management_App/src/components/Dashboard.tsx:70-84 | Every entry of the scan has the requested class. |
| Dashboard.CollectAlerts | Pharmacy_Stock_Management_App/src/components/Dashboard.tsx:67-84 | The nested push loops produce exactly the specified expired and expiring lists. |
| Dashboard.LoadAlerts | Pharmacy_Stock_Management_App/src/components/Dashboard.tsx:67-89 | The panel's list is the sorted expired entries followed by the sorted expiring entries. |
| Dashboard.AlertList | Pharmacy_Stock_Management_App/src/components/Dashboard.tsx:86-89 | The list is as long as the expired and the expiring scans together. Its order and membership are proved in `AlertListOrder` and `AlertListMembership`. |
| Dashboard.AlertListOrder | Pharmacy_Stock_Management_App/src/components/Dashboard.tsx:86-89 | All expired entries come before all expiring ones. Within each group, expiry is non-decreasing. |
| Dashboard.BatchEntriesMembership | Pharmacy_Stock_Management_App/src/components/Dashboard.tsx:71-83 | An entry is listed for a medicine iff it is one of that medicine's batches with the requested class. |
| Dashboard.EntriesMembership | Pharmacy_Stock_Management_App/src/components/Dashboard.tsx:70-84 | An entry is in the scan iff some medicine's batch produced it with the requested class. |
| Dashboard.EntriesWitness | Pharmacy_Stock_Management_App/src/components/Dashboard.tsx:70-84 | Every entry of the scan names a medicine and one of its batches that produced it. |
| Dashboard.EntriesComplete | Pharmacy_Stock_Management_App/src/components/Dashboard.tsx:70-84 | Every batch with the requested class produces its entry in the scan. |
| Dashboard.AlertListMembership | Pharmacy_Stock_Management_App/src/components/Dashboard.tsx:70-89 | An entry is in the alert list iff it comes from a batch classified expired or expiring. Every listed batch has quantity > 0. |
| Dashboard.BatchEntriesCount | Pharmacy_Stock_Management_App/src/components/Dashboard.tsx:76-82 | A medicine's expired and expiring entries add up to its number of alerting batches. |
| Dashboard.AlertListLength | Pharmacy_Stock_Management_App/src/components/Dashboard.tsx:86-89 | The alert list is as long as the number of alerting batches. |
| Dashboard.DaysUntilExpiry | Pharmacy_Stock_Management_App/src/components/Dashboard.tsx:148-154 | The result is 999 without a date. Otherwise it is the ceiling of the distance in days. |
| Dashboard.RenderFilterHidesNothing | Pharmacy_Stock_Management_App/src/components/Dashboard.tsx:245-251 | Take any listed entry, rendered at or after the load time. It has at most 45 days left, so the 365-day render filter never hides it. |
| Dashboard.LowStock | Pharmacy_Stock_Management_App/src/components/Dashboard.tsx:92-95 | A medicine is low iff 0 ≤ (sum of its batch quantities) < minStock. |
| Dashboard.LowStockKeepsOrder | Pharmacy_Stock_Management_App/src/components/Dashboard.tsx:92-95 | The low-stock list distributes over concatenation. It is the stable sub-sequence of the medicines. |
| Dashboard.MinimumDefaultsDisagree | Pharmacy_Stock_Management_App/src/components/Dashboard.tsx:55 | Take a medicine stored with `minStock` 0 whose cached total is its true stock, between 0 and 9. The client flags it low (`|| 10`), while the backend's low-stock count (`|| 0`) does not count it. |
| Dashboard.TotalStockIsSumOfAllBatches | Pharmacy_Stock_Management_App/src/components/Dashboard.tsx:99-102 | The overall stock (a sum of per-medicine sums) is the sum over all batches. |
| Dashboard.TotalStock | Pharmacy_Stock_Management_App/src/components/Dashboard.tsx:98-101 | Definition: the nested reduce. `TotalStockIsSumOfAllBatches` proves it equal to the sum over all batches. |
| Dashboard.LoadedStockIsBatchSum | Pharmacy_Stock_Management_App/src/components/Dashboard.tsx:93 | A loaded medicine's stock is the backend's sum of its batch quantities. |
| Dashboard.NormalizedSum | Pharmacy_Stock_Management_App/src/components/Dashboard.tsx:39 | Normalising the batches keeps the sum of their quantities. |
| Dashboard.PendingSplitsOrders | Pharmacy_Stock_Management_App/src/components/Dashboard.tsx:125 | The pending count plus the count of the other orders is the number of orders. |
| Dashboard.PendingOrders | Pharmacy_Stock_Management_App/src/components/Dashboard.tsx:125 | The pending count is at most the number of orders. `PendingSplitsOrders` relates it to the other orders. |
| Dashboard.TodayAmountMatchesReport | Pharmacy_Stock_Management_App/src/components/Dashboard.tsx:105-118 | The dashboard's today-revenue adds up exactly the sales that the reports panel lists under `'today'` with no search text. |
| Dashboard.TodaySalesAmount | Pharmacy_Stock_Management_App/src/components/Dashboard.tsx:105-118 | Definition: the sum of `total \|\| 0` over the sales whose date starts with today. `TodayAmountMatchesReport` ties it to the reports panel. |
| StockManagement.LoadMedicines | Pharmacy_Stock_Management_App/src/components/StockManagement.tsx:32-44 | There is one medicine per API row, with the same defaults as the dashboard (`Sans nom`, `minStock` 10). The batches are kept as received. |
| StockManagement.GetTotalStock | Pharmacy_Stock_Management_App/src/components/StockManagement.tsx:229-230 | A medicine without batches has stock 0. |
| StockManagement.TotalStockIsBatchSum | Pharmacy_Stock_Management_App/src/components/StockManagement.tsx:229-230 | The page's stock of a loaded medicine equals the backend's sum of that medicine's batch quantities. |
| StockManagement.IsLowStock | Pharmacy_Stock_Management_App/src/components/StockManagement.tsx:287 | Definition: `totalStock < minStock`. `LowStockAgreesWithDashboard` compares it with the dashboard's test. |
| StockManagement.LowStockAgreesWithDashboard | Pharmacy_Stock_Management_App/src/components/StockManagement.tsx:287 | The page's strict `total < minStock` agrees with the dashboard's test, except that only the page flags a negative total. |
| Common.DaysUntil | Pharmacy_Stock_Management_App/src/components/StockManagement.tsx:232-237 | Days left is the ceiling of (date − now) / one day. It is `NaN` exactly when the date does not parse. The supplier order page computes days until delivery the same way (SupplierOrders.tsx:161-163). |
| StockManagement.Badges | Pharmacy_Stock_Management_App/src/components/StockManagement.tsx:393-395 | A batch is never both expired and expiring soon. `BadgesByInstant` reads both badges off the expiry instant. |
| StockManagement.BadgesByInstant | Pharmacy_Stock_Management_App/src/components/StockManagement.tsx:393-395 | Expired iff the expiry instant ≤ now. Soon iff now < expiry ≤ now + 90 days. Never both, neither for an unparseable date, and quantity is not consulted. |
| StockManagement.FilteredMedicines | Pharmacy_Stock_Management_App/src/components/StockManagement.tsx:222-227 | A medicine is kept iff the lower-cased term occurs in its lower-cased name, generic name or category. |
| StockManagement.EmptySearchKeepsAll | Pharmacy_Stock_Management_App/src/components/StockManagement.tsx:222-227 | An empty term keeps every medicine, in order. |
| StockManagement.SearchKeepsOrder | Pharmacy_Stock_Management_App/src/components/StockManagement.tsx:222-227 | The search distributes over concatenation, so input order is kept. |
| StockManagement.SearchIgnoresCase | Pharmacy_Stock_Management_App/src/components/StockManagement.tsx:222-227 | A term and its lower-cased form give the same list. |
| StockManagement.LongerTermNarrows | Pharmacy_Stock_Management_App/src/components/StockManagement.tsx:222-227 | Whatever matches a term also matches every substring of it. |
| BatchController.Max0 | backend/src/controllers/batch.controller.ts:58 | `Math.max(0, x)` is non-negative, at least x, and equal to x or 0. |
| BatchController.NewBatch | backend/src/controllers/batch.controller.ts:17 | Definition: the body as the new row under the given id. `CreateBatch` appends it. |
| BatchController.PatchBatch | backend/src/controllers/batch.controller.ts:49 | Definition: `Object.assign` of the fields present in the body. `UpdateBatch` stores it in place. |
| BatchController.CreateBatch | backend/src/controllers/batch.controller.ts:12-33 | Returns 201. The new batch is appended under the next id. The medicine it names, if it exists, takes the batch's prices and `total + quantity`. No other table changes. |
| BatchController.UpdateBatch | backend/src/controllers/batch.controller.ts:35-70 | A missing id gives 404 and nothing changes. Otherwise the batch is patched in place. The medicine named by the NEW `medicineId` takes the prices and `max(0, total + new − old)`. The previous medicine is untouched. |
| BatchController.DeleteBatch | backend/src/controllers/batch.controller.ts:72-103 | A missing id gives 404 and nothing changes. Otherwise exactly that batch is removed, and its medicine's total becomes `max(0, total − quantity)`. |
| BatchController.CreateBatchKeepsCache | backend/src/controllers/batch.controller.ts:20-25 | Creating a batch keeps every cached total equal to its batch sum. |
| BatchController.UpdateBatchInPlaceKeepsCache | backend/src/controllers/batch.controller.ts:46-58 | An update that stays on the same medicine, with non-negative quantities, keeps the cache consistent. |
| BatchController.UpdateBatchMoveBreaksCache | backend/src/controllers/batch.controller.ts:46-58 | Moving a non-empty batch to another medicine leaves the previous medicine's row unchanged, and the cache inconsistent. |
| BatchController.DeleteBatchKeepsCache | backend/src/controllers/batch.controller.ts:83-92 | Deleting a batch keeps the cache consistent while quantities are non-negative. |
| SaleController.DecrementItems | backend/src/controllers/sale.controller.ts:25-38 | The item loop gives exactly the outcome of the item-by-item specification: the batches as saved, and the total or the refused position. |
| SaleController.ProcessItems | backend/src/controllers/sale.controller.ts:25-38 | Definition: the item-by-item specification of the loop, each item re-reading the table the previous ones left. `DecrementItems` is proved equal to it, and the lemmas below state its meaning. |
| SaleController.ProcessItemsShape | backend/src/controllers/sale.controller.ts:25-38 | The loop keeps the batch table's length, and a refused position is one of the items. |
| SaleController.CreateSale | backend/src/controllers/sale.controller.ts:17-58 | The batches become those the loop saved. A refused item gives 400 and no sale. Otherwise the sale is appended with the server's date, number and total. Medicines are never touched. |
| SaleController.NewSaleShape | backend/src/controllers/sale.controller.ts:42-48 | A recorded sale has the server's date and total. Its number is `VTE` followed by the creation time, which reads back from it. |
| SaleController.NewSale | backend/src/controllers/sale.controller.ts:42-48 | Definition: the body's fields with the server's date, number and total. `NewSaleShape` states its shape. |
| SaleController.AcceptedTotal | backend/src/controllers/sale.controller.ts:37 | An accepted sale's total is Σ quantity × unitPrice over its items. |
| SaleController.RejectedKeepsEarlierDecrements | backend/src/controllers/sale.controller.ts:25-38 | There is no rollback. When item k is refused, items 0..k−1 were all accepted and their decrements are what stays saved, and item k fails against that table. |
| SaleController.InStockMeans | backend/src/controllers/sale.controller.ts:26-31 | An item passes iff its batch exists and holds at least the item's quantity. |
| SaleController.ProcessKeepsNonNegative | backend/src/controllers/sale.controller.ts:34-35 | Starting from non-negative batches, every saved batch stays non-negative. |
| SaleController.ProcessChangesOnlyQuantities | backend/src/controllers/sale.controller.ts:34-35 | The loop changes only batch quantities: same ids, same order, same other fields. |
| SaleController.AcceptedConservesStock | backend/src/controllers/sale.controller.ts:34-35 | An accepted sale removes exactly Σ item.quantity from the total batch stock. |
| SaleController.SaleBreaksCache | backend/src/controllers/sale.controller.ts:21-50 | A sale of a positive quantity leaves the medicine's cached total as it was, so the cache no longer matches. |
| SaleController.RepeatedBatchSeesDecrement | backend/src/controllers/sale.controller.ts:25-35 | Two lines of 3 on a batch of 5: the second line is checked against 2 and refused, and the first decrement stays. |
| SaleController.UpdateSale | backend/src/controllers/sale.controller.ts:60-77 | A missing id gives 404 and nothing changes. Otherwise only the fields in the body are overwritten. |
| SaleController.PatchSale | backend/src/controllers/sale.controller.ts:70 | Definition: `Object.assign` of the fields present in the body. `UpdateSale` stores it in place. |
| SaleController.DeleteSale | backend/src/controllers/sale.controller.ts:79-95 | A missing id gives 404 and nothing changes. Otherwise exactly that sale is removed. |
| Common.TextOrNone | backend/src/controllers/medicine.controller.ts:30-33 | `s \|\| null` here, and `x \|\| undefined` on the supplier order form (SupplierOrders.tsx:109-110), give nothing exactly for the empty text and keep any other text. |
| MedicineController.NewMedicine | backend/src/controllers/medicine.controller.ts:28-38 | A new medicine has stock 0 and prices 0. `minStock` is the given one, or 10 when falsy. A falsy optional field becomes null. |
| MedicineController.PatchMedicine | backend/src/controllers/medicine.controller.ts:76 | Definition: `Object.assign` of the fields present in the body. `UpdateMedicine` stores it in place. |
| MedicineController.CreateFailure | backend/src/controllers/medicine.controller.ts:46-62 | A duplicate entry gives 409, a failed query 400, and anything else 500. |
| MedicineController.UpdateFailure | backend/src/controllers/medicine.controller.ts:84-92 | A duplicate entry gives 409 and anything else 500. |
| MedicineController.DeleteFailure | backend/src/controllers/medicine.controller.ts:126-134 | A referenced row gives 409 and anything else 500. |
| MedicineController.OtherBatches | backend/src/controllers/medicine.controller.ts:109-112 | The remaining batches are exactly those of other medicines. |
| MedicineController.RemoveBatchesOf | backend/src/controllers/medicine.controller.ts:109-112 | The cascade removes exactly the medicine's batches, returns how many there were, and changes nothing else. |
| MedicineController.CreateMedicine | backend/src/controllers/medicine.controller.ts:14-64 | An empty name gives 400 and creates nothing. A database failure maps to its status and creates nothing. Otherwise the new medicine is appended under the next id with 201. |
| MedicineController.UpdateMedicine | backend/src/controllers/medicine.controller.ts:66-94 | A missing id gives 404. A failure maps to its status. Otherwise only the fields in the body are overwritten in place. |
| MedicineController.DeleteMedicine | backend/src/controllers/medicine.controller.ts:96-136 | A missing id gives 404 and removes nothing. A failure of the batch removal, which is only attempted when there are batches, gives its status and changes nothing. Otherwise exactly the medicine's batches are removed and counted, and then the medicine is removed. A failure at that step leaves the batches removed and the medicine in place. |
| MedicineController.NoBatchesKeepsAll | backend/src/controllers/medicine.controller.ts:110-112 | With no batches of the medicine, the batch table is unchanged. |
| MedicineController.OtherBatchesKeyed | backend/src/controllers/medicine.controller.ts:111 | Removing the cascade keeps batch ids unique and below the counter. |
| MedicineController.CascadeSplitsBatches | backend/src/controllers/medicine.controller.ts:109-120 | The removed batches and the remaining ones together are all the batches. |
| MedicineController.CascadeKeepsOtherStock | backend/src/controllers/medicine.controller.ts:109-112 | Every other medicine keeps its batch sum. |
| MedicineController.DeleteMedicineKeepsCache | backend/src/controllers/medicine.controller.ts:109-115 | A successful delete keeps the cache consistent. |
| MedicineController.CreateMedicineCache | backend/src/controllers/medicine.controller.ts:28-38 | A new medicine (total 0) keeps the cache consistent exactly when no batch already names its id. |
| OrderController.OrderTotal | backend/src/controllers/order.controller.fixed.ts:21-24 | The loop's total is Σ quantity × unitPrice. |
| OrderController.CreateOrder | backend/src/controllers/order.controller.fixed.ts:16-48 | Returns 201. The order is appended under the next id with the server-computed total. Nothing else changes. |
| OrderController.NewOrderShape | backend/src/controllers/order.controller.fixed.ts:30-38 | A created order is `pending` whatever the client sent. Its total is the line sum. Its number is `CMD` followed by the creation time, which reads back from it. |
| OrderController.NewOrder | backend/src/controllers/order.controller.fixed.ts:30-38 | Definition: the body's fields with the server's number, date, `pending` status and total. `NewOrderShape` states its shape. |
| OrderController.OrderNumbersDiffer | backend/src/controllers/order.controller.fixed.ts:32 | Orders created at different times get different numbers. |
| OrderController.UpdateOrder | backend/src/controllers/order.controller.fixed.ts:50-68 | A missing id gives 404 and nothing changes. Otherwise only the body's fields are overwritten. Any status text is stored as is. |
| OrderController.PatchOrder | backend/src/controllers/order.controller.fixed.ts:60 | Definition: `Object.assign` of the fields present in the body. `UpdateOrder` stores it in place. |
| OrderController.DeleteOrder | backend/src/controllers/order.controller.fixed.ts:70-86 | A missing id gives 404 and nothing changes. Otherwise exactly that order is removed. |
| DashboardController.GetDashboardData | backend/src/controllers/dashboard.controller.ts:7-39 | totalMedicines and totalSales are the table sizes. The expired and low-stock counts are bounded by theirs. |
| DashboardController.ExpiredBatches | backend/src/controllers/dashboard.controller.ts:20-23 | Exactly the batches whose expiry day is at most today are counted. |
| DashboardController.LowStockMedicines | backend/src/controllers/dashboard.controller.ts:29-32 | Exactly the medicines whose cached total is below `minStock \|\| 0` are counted. |
| DashboardController.CachedCountMatchesBatches | backend/src/controllers/dashboard.controller.ts:29-32 | While the cache is consistent, counting on `totalQuantity` selects the same medicines as counting on batch sums. |
| DashboardController.NoMinimumNeverLow | backend/src/controllers/dashboard.controller.ts:31 | A medicine without `minStock` and with a non-negative total is never counted. |
| DashboardController.ExpiryBoundary | backend/src/controllers/dashboard.controller.ts:20-23 | A batch expiring today is counted as expired, and one expiring tomorrow is not. |
| DashboardController.ExpiredCountMonotone | backend/src/controllers/dashboard.controller.ts:20-23 | The expired count only grows as days pass. |
| SupplierOrders.FindMedicine | Pharmacy_Stock_Management_App/src/components/SupplierOrders.tsx:73-76 | A found medicine is in the list and its `String(id)` equals the form value. Nothing is found iff no medicine's id does. |
| SupplierOrders.LineItem | Pharmacy_Stock_Management_App/src/components/SupplierOrders.tsx:71-87 | A line becomes an item iff its medicine id is non-empty, quantity and price are non-zero numbers, and the medicine exists. A zero price is therefore dropped. The item's total is its price × quantity. |
| SupplierOrders.ValidItemsMembership | Pharmacy_Stock_Management_App/src/components/SupplierOrders.tsx:57-90 | An item is collected iff some form line yields it. |
| SupplierOrders.ValidItemsLength | Pharmacy_Stock_Management_App/src/components/SupplierOrders.tsx:57-90 | There are no more items than form lines. |
| SupplierOrders.ValidItemsPriced | Pharmacy_Stock_Management_App/src/components/SupplierOrders.tsx:79-85 | Every collected item's total is quantity × unitPrice. |
| SupplierOrders.ClientTotalIsServerTotal | Pharmacy_Stock_Management_App/src/components/SupplierOrders.tsx:87 | The posted total equals the line sum the server recomputes. |
| SupplierOrders.CollectItems | Pharmacy_Stock_Management_App/src/components/SupplierOrders.tsx:54-90 | The loop gives exactly the collected items, with total Σ quantity × unitPrice. |
| SupplierOrders.AsWrittenFindsNothing | Pharmacy_Stock_Management_App/src/components/SupplierOrders.tsx:101 | `s.id === supplierId` (number against string) finds no supplier. |
| SupplierOrders.SupplierNameAsWrittenIsEmpty | Pharmacy_Stock_Management_App/src/components/SupplierOrders.tsx:100-107 | A supplier picked from the list still yields an empty `supplierName`. |
| SupplierOrders.FindSupplier | Pharmacy_Stock_Management_App/src/components/SupplierOrders.tsx:101 | Corrected lookup: a found supplier's id text equals the form value. Nothing is found iff no supplier's does. |
| SupplierOrders.ChosenSupplierNamesOrder | Pharmacy_Stock_Management_App/src/components/SupplierOrders.tsx:100-107 | With unique ids, the chosen supplier's name is the order's `supplierName`. |
| SupplierOrders.HandleAddOrder | Pharmacy_Stock_Management_App/src/components/SupplierOrders.tsx:38-115 | Nothing is posted iff no line is valid. Otherwise the draft has the collected items, their line sum, status `pending`, number `CMD` + now, and the form's supplier and dates. |
| SupplierOrders.ParseStatus | Pharmacy_Stock_Management_App/src/components/SupplierOrders.tsx:297-360 | A recognised status text is the name of the status it parses to. |
| SupplierOrders.StatusRoundTrip | Pharmacy_Stock_Management_App/src/components/SupplierOrders.tsx:297-360 | Names parse back to their status. A text is unrecognised iff it names no status. |
| SupplierOrders.OfferedTransitions | Pharmacy_Stock_Management_App/src/components/SupplierOrders.tsx:297-360 | Buttons are offered iff the status is one of the five. |
| SupplierOrders.TransitionShape | Pharmacy_Stock_Management_App/src/components/SupplierOrders.tsx:297-360 | No button keeps the status. Cancel is offered iff the order is pending, confirmed or shipped. Back-to-pending is offered only when cancelled. |
| SupplierOrders.Reactivation | Pharmacy_Stock_Management_App/src/components/SupplierOrders.tsx:297-360 | From every status a sequence of offered clicks leads back to `pending`. |
| SupplierOrders.ClickChangesOnlyStatus | Pharmacy_Stock_Management_App/src/components/SupplierOrders.tsx:127-135 | The `{ status }` body changes the stored order's status and nothing else. |
| SupplierOrders.StatusLabel | Pharmacy_Stock_Management_App/src/components/SupplierOrders.tsx:148-157 | An unknown status is shown as its own text. |
| SupplierOrders.LabelsDistinct | Pharmacy_Stock_Management_App/src/components/SupplierOrders.tsx:148-157 | Distinct statuses get distinct labels. |
| SupplierOrders.OrderAlert | Pharmacy_Stock_Management_App/src/components/SupplierOrders.tsx:160-182 | Error iff cancelled. Warning iff pending or shipped with days < 0, carrying the positive delay. Info iff pending with 0 ≤ days ≤ 2. Confirmed, delivered and unknown statuses never alert. |
| SupplierOrders.AlertByInstant | Pharmacy_Stock_Management_App/src/components/SupplierOrders.tsx:160-182 | A warning means at least a full day past the expected instant. An info means within (−1 day, +2 days] of it. |
| SupplierOrders.FilteredOrders | Pharmacy_Stock_Management_App/src/components/SupplierOrders.tsx:137-146 | The list is newest first and no longer than the input. |
| SupplierOrders.FilteredOrdersContents | Pharmacy_Stock_Management_App/src/components/SupplierOrders.tsx:137-146 | An order is listed iff it matches both the search and the status filter. The list is a permutation of the filtered orders. |
| SupplierOrders.NoFilterListsAll | Pharmacy_Stock_Management_App/src/components/SupplierOrders.tsx:137-146 | With no text and `'all'`, the list is a permutation of all orders. |
| SupplierOrders.ItemsCount | Pharmacy_Stock_Management_App/src/components/SupplierOrders.tsx:455-464 | The item-count control starts at 1 and never drops below 1. |
| Sales.WindowsNest | Pharmacy_Stock_Management_App/src/components/Sales.tsx:94-103 | A sale of today is within the week, and one within the week is within the month. |
| Sales.FilterByDate | Pharmacy_Stock_Management_App/src/components/Sales.tsx:90-105 | A sale is kept iff its date is in the selected window. An unparseable date is kept only under `all`. |
| Sales.DateWindowsNest | Pharmacy_Stock_Management_App/src/components/Sales.tsx:97-102 | Today ⊆ week ⊆ month ⊆ all, with counts ordered accordingly. `all` returns the sales themselves. |
| Sales.FilteredSales | Pharmacy_Stock_Management_App/src/components/Sales.tsx:107-116 | The list is newest first and no longer than the input. |
| Sales.FilteredSalesContents | Pharmacy_Stock_Management_App/src/components/Sales.tsx:107-116 | A sale is listed iff it is in the window and the term occurs, case-insensitively, in its number, its customer name or some line's medicine name. The list is a permutation of those sales. |
| Sales.NoFilterListsAll | Pharmacy_Stock_Management_App/src/components/Sales.tsx:107-116 | With no text and `all`, the list is a permutation of all sales. |
| Sales.Summary | Pharmacy_Stock_Management_App/src/components/Sales.tsx:118-119 | Revenue and average are 0 without sales. Otherwise average × n = revenue. |
| Sales.SummaryMeans | Pharmacy_Stock_Management_App/src/components/Sales.tsx:119 | The average lies between the smallest and the largest sale total. |
| Sales.RevenueIgnoresOrder | Pharmacy_Stock_Management_App/src/components/Sales.tsx:118 | Reordering the sales does not change the revenue. |
| AdminReports.TotalSales | Pharmacy_Stock_Management_App/src/components/AdminSettings.tsx:401-403 | The total over no sales is 0. |
| AdminReports.TodaySales | Pharmacy_Stock_Management_App/src/components/AdminSettings.tsx:405-408 | The count of today's sales is at most the number of sales. |
| AdminReports.AverageSale | Pharmacy_Stock_Management_App/src/components/AdminSettings.tsx:410-412 | The average is 0 without sales. Otherwise average × n = totalSales. |
| AdminReports.AverageSaleBounds | Pharmacy_Stock_Management_App/src/components/AdminSettings.tsx:410-412 | The average lies between the smallest and the largest reported total. |
| AdminReports.FilteredSales | Pharmacy_Stock_Management_App/src/components/AdminSettings.tsx:414-428 | A sale is listed iff it matches the search (empty term, id text containing the term, or customer name containing it without regard to case) and, under `'today'`, its date starts with today's date. |
| AdminReports.NoFilterListsAll | Pharmacy_Stock_Management_App/src/components/AdminSettings.tsx:414-428 | An empty term with `'all'` lists every sale, in order. |
| AdminReports.TodayListMatchesCount | Pharmacy_Stock_Management_App/src/components/AdminSettings.tsx:405-428 | With no term, the `'today'` list is as long as the `todaySales` count. |
| AdminReports.IdFindsSale | Pharmacy_Stock_Management_App/src/components/AdminSettings.tsx:417 | Searching a sale's id finds that sale. |
| AdminReports.CsvFields | Pharmacy_Stock_Management_App/src/components/AdminSettings.tsx:433-439 | Every row has as many fields as the header (5). |
| AdminReports.RowLines | Pharmacy_Stock_Management_App/src/components/AdminSettings.tsx:433-440 | There is one data line per sale (all sales, not the filtered ones), in order. |
| AdminReports.ExportSales | Pharmacy_Stock_Management_App/src/components/AdminSettings.tsx:430-440 | Definition: the header line, then one joined line per sale, joined by line breaks. What it means is proved in `ExportHasOneLinePerSale` and `RowRoundTrip`. |
| AdminReports.FieldsAvoid | Pharmacy_Stock_Management_App/src/components/AdminSettings.tsx:433-439 | A field holds a given non-digit character only if the sale's date, name or payment method holds it. |
| AdminReports.ExportHasOneLinePerSale | Pharmacy_Stock_Management_App/src/components/AdminSettings.tsx:430-440 | Without line breaks inside the texts, the CSV splits on `\n` into the header line plus one line per sale: n + 1 lines. |
| AdminReports.RowFieldCount | Pharmacy_Stock_Management_App/src/components/AdminSettings.tsx:440 | A row splits on `,` into 5 fields plus one for every comma inside them, because nothing is quoted. |
| AdminReports.RowRoundTrip | Pharmacy_Stock_Management_App/src/components/AdminSettings.tsx:432-440 | Without commas in the texts, a row splits back into exactly its five fields. |
| AdminReports.CommaInNameAddsField | Pharmacy_Stock_Management_App/src/components/AdminSettings.tsx:436-440 | A comma in a customer name yields at least 6 fields, so the columns after it shift. |

## Left out

- **User interface.** Rendering, hooks, modals, the confirm/alert dialogs, the login and tab state of `App.tsx`, and `localStorage` are not modelled. They are presentation only.
- **Network.** The HTTP client, the mobile-sales synchronisation and the network probes are not modelled. A page's input is the JSON it receives, taken as a parameter.
- **Authentication.** The bcrypt/JWT login and the hash-generation scripts are foreign calls.
- **Currency and floating-point money.** The XOF formatting (`currency.ts`) and floating-point money are not modelled: amounts are integers. An average is an exact rational.
- **Scripts and smoke tests.** The seed, repair, diagnostic and test scripts are database I/O driven by randomness and the clock.
- **Supplier CRUD.** `supplier.controller.ts` is a repository pass-through. Suppliers appear only as `{ id, name }` records.
- **ORM wiring.** Entities, routes and `config/db.ts` are used only as record shapes. `order.routes.ts` imports `order.controller` rather than `order.controller.fixed.ts`. The model follows the fixed controller.
- **Database failures.** Unique-key, query and foreign-key failures cannot be computed from the controller code. They are parameters of the medicine methods: of the save in create and update, and of both removals in delete. The other controllers' 500 paths are not modelled.
- **Time.** Date parsing, time zones and daylight saving are abstracted:
  - `dateOf` stands for `new Date(s).getTime()`;
  - "same calendar day" is the day number at a given zone offset;
  - `setDate(+45)` is 45 × 24 h;
  - the re-serialisation of parsed dates by `toISOString()` in the dashboard is taken as preserving the instant.
  - `dayOf` in the dashboard count reads the `datetime` column `expiryDate` as a day number. MySQL compares it with today's `YYYY-MM-DD` as that day's midnight. So a batch stored with a later time on the current day is not counted by the source, but the model counts it. The two agree on the midnight values that the stock page's date inputs store. `DashboardController.ExpiryBoundary` holds on that reading.
- **Case folding.** `toLowerCase` is modelled on ASCII letters only. JavaScript also folds accented capitals such as É and À, which occur in French names. So the case-insensitive searches of the stock page, the sales page, the supplier orders page and the reports panel do not match an accented capital with its lower-case form in the model.
- **Sorting.** `Array.prototype.sort` with a date-difference comparator is modelled as a stable insertion sort function on an integer key. A date that does not parse is given key 0, where JavaScript's comparator would return `NaN`.
- **Route ids.** `parseInt` of route ids, and of `minStock` in `createMedicine`, are not modelled: ids and numbers arrive as integers.
- **Client-side ids.** The frontend record types declare ids as strings. The model keeps the backend's numeric ids and converts them with `String(...)` where the code compares texts.
- **Alias fields.** The snake_case alias fields of the `||` chains (`medicine_name`, `min_stock`, `expiry_date`, `totalPrice`, `amount`, …) never occur in the JSON the backend sends, so each chain is reduced to its first field and its final default.
- **Client ids in request bodies.** `createOrder` and `createSale` spread the client's fields into the new row, including any `id` the client sent. `SupplierOrders.HandleAddOrder` always sends one: `id` is `Date.now()` as text. So the next auto-increment id that `OrderController.CreateOrder` assigns never describes a request from that page. TypeORM would save the row under the sent id instead. The update handlers' `Object.assign` would likewise copy a body `id`. The model's patches carry no `id`, and the model always gives a new row the next auto-increment id.
- SaleController.CreateSale: the source saves each batch inside the loop. The model computes the saved table in a value-level loop and then writes it once. With no concurrent request, both give the same final state.
- SupplierOrders.HandleAddOrder: the model uses the corrected supplier lookup (see Findings). The source always posts an empty `supplierName`.
- **Batch supplier name.** The stock page shows each batch's supplier name through the same number-against-string `===` lookup. Since it only affects what is displayed, it is not modelled.

## Findings

| source | as written | input that shows it | evidently intended | confidence | as-written member | corrected member |
|---|---|---|---|---|---|---|
| Pharmacy_Stock_Management_App/src/components/SupplierOrders.tsx:100-107 | `suppliers.find(s => s.id === supplierId)` compares the supplier's numeric JSON id with the form's string value, so no supplier is ever found and `supplierName` is always `''`. | Suppliers `[{ id: 1, name: "Laborex" }]`; the form selects option value `"1"`; the posted order has `supplierName: ""`. | Compare the id as text, as the medicine lookup in the same handler does (lines 73-76), so the order carries the chosen supplier's name. | medium (not executed; relies on the backend sending numeric ids, as the `Supplier` entity's generated primary key does) | SupplierOrders.SupplierNameAsWrittenIsEmpty | SupplierOrders.ChosenSupplierNamesOrder |
