# Point-of-sale checkout, sales report and inventory report — a Dafny model

This project models the core of a small point-of-sale web application.
It covers four parts:

- **The checkout backend** (`app/sales.py`):
  - A request's item lines are validated.
  - Lines for the same product are merged into one quantity per product, in first-seen order.
  - The products are looked up, and stock is checked for every line before anything is written.
  - Each line is priced and the lines are summed.
  - The sale is recorded as one transaction header, one row per line, and an update of stock and units sold.
  - Low-stock advice is produced.
  - A QR payment session is opened for QR payments.
  - The in-memory QR status table expires a session after 300 seconds, and can be marked paid.
  - The checkout endpoint validates the payment method before selling.
- **The sales report** (`app/sales_report.py`):
  - Transaction lines are joined with their headers.
  - The rows are filtered by date range.
  - They are grouped by day, Monday-first week number (`%Y-W%W`, not ISO 8601) or month, in ascending key order.
  - The JSON endpoint replaces NULL sums by 0.
- **The checkout page's cart** (`static/checkout.js`):
  - Add, remove and update-quantity operations on the cart.
  - The running total.
  - The pay and cancel buttons.
- **The inventory report page** (`static/inventory-report.js`):
  - The stock status of each product and its valuation.
  - The "only low stock" filter.
  - The CSV export.

Money is integer cents throughout. The model is split into modules:

- `Wrappers`: Option and Result.
- `Text`: decimal numerals, lower-casing and SQLite's BINARY text order.
- `Calendar`: dates, and the `date()` and `strftime` keys SQLite groups by.
- `Sales`: the pure pipeline of `sell_products`.
- `QrTracker`: `TX_STATUS` as a class over a map, with the pure transition functions that specify it.
- `SalesCommit`: the database as a class, plus `sell_products` and `checkout_sale` as methods on it.
- `SalesReport`: the report.
- `CheckoutCart`: the cart as a class.
- `InventoryReport`: the inventory page, with a CSV reader used to prove that the export reads back.

Environment inputs are parameters. `datetime.now()` and `time.time()` are passed in as values. A database failure during the writes is passed in as a flag, `storeFault`, and so is an exception in the report query, `fault`. The server's answer to a product lookup is passed in as a `Fetched` value. The browser's `confirm()` answer and the outcome of the checkout request are passed in as booleans.

## Model

| member | source | states |
|---|---|---|
| Sales.CombineOutcome | my_flask_app/app/sales.py:21-38 | A missing, non-list or empty `items` value gives invalid_input. If every line is well formed with a positive quantity, the result is the merge of the lines. Otherwise the error is the one for the first bad line. |
| Sales.Combine | my_flask_app/app/sales.py:21-38 | A non-list or empty `items` value is rejected with invalid_input, and every other rejection is invalid_item or invalid_quantity. Together with `Sales.CombineOutcome` it says which line triggers the error. |
| Sales.Scan | my_flask_app/app/sales.py:26-36 | Scanning the lines fails only with invalid_item or invalid_quantity; the failing line is the first bad one (`Sales.ScanFirstBad`). |
| Sales.CombineSuccess | my_flask_app/app/sales.py:21-38 | A successful merge is non-empty and has distinct product ids. It has the same set of ids as the request lines, and each id's quantity is the sum of that product's lines. Every quantity is positive. |
| Sales.CombineItems | my_flask_app/app/sales.py:21-38 | The loop over the items returns exactly the merge described by `Combine`: it stops at the first bad line and otherwise accumulates quantities per product. |
| Sales.MergeQuantity | my_flask_app/app/sales.py:37 | `combined[pid] += qty` keeps, for every product, the sum of all of its request quantities. |
| Sales.MergeKeys | my_flask_app/app/sales.py:21-38 | The merged dictionary has distinct keys, exactly the products of the request. |
| Sales.MergeIds | my_flask_app/app/sales.py:21-38 | The merged dictionary's keys are the request's product ids in first-occurrence order, as an insertion-ordered dict keeps them. |
| Sales.MergeOfDistinct | my_flask_app/app/sales.py:37-38 | A request with no repeated product is returned unchanged. |
| Sales.ScanFirstBad | my_flask_app/app/sales.py:26-36 | The error reported is the one of the first line that is malformed or has a quantity of at most 0. A malformed line gives invalid_item; a bad quantity gives invalid_quantity with the line's product id as `int()` reads it (the source's detail text prints the raw JSON value, e.g. `7.9` where the model carries 7). |
| Sales.FetchProducts | my_flask_app/app/sales.py:41-56 | The lookup fails exactly when some requested id has no product row, and it then reports the missing ids. On success it returns the database rows for exactly the requested ids. |
| Sales.Missing | my_flask_app/app/sales.py:53 | The missing list holds exactly the requested ids that are not in the table. |
| Sales.MissingAppend | my_flask_app/app/sales.py:53 | The missing list keeps request order: the missing ids of a request split in two are those of the first part followed by those of the second. With `Sales.MissingOne`, one id is listed exactly when it has no row, so each absent id appears once per occurrence in the request, in place, and no present id appears. |
| Sales.MissingOne | my_flask_app/app/sales.py:53 | A single requested id is listed as missing exactly when it has no product row. |
| Sales.StockShortfall | my_flask_app/app/sales.py:59-68 | No error is returned exactly when every merged quantity is at most the stock on hand. Otherwise the error names the first product, in merge order, whose demand exceeds its stock, with its name, stock and demand. |
| Sales.CheckStock | my_flask_app/app/sales.py:59-68 | The loop returns the first shortfall described by `StockShortfall`, or none. |
| Sales.CalcLinesAndTotal | my_flask_app/app/sales.py:71-85 | There is one line summary per merged product, in merge order, with the unit price, quantity and line total of that product. The total is the sum of the line totals. |
| Sales.LineTotalsAreSubtotal | my_flask_app/app/sales.py:74-85 | The sum of the line totals is the value of the merged request at the row prices: the sum of price times quantity. |
| Sales.LowStockSound | my_flask_app/app/sales.py:88-95 | Every warning is about a line whose remaining stock (stock minus sold) is at most the threshold, and carries that line's name and remaining count. |
| Sales.LowStock | my_flask_app/app/sales.py:88-95 | At most one warning per merged line; which lines are warned about is `Sales.LowStockSound` and `Sales.LowStockComplete`. |
| Sales.LowStockComplete | my_flask_app/app/sales.py:88-95 | Every line whose remaining stock is at most the threshold gets a warning. |
| Sales.LowStockOncePerProduct | my_flask_app/app/sales.py:88-95 | With distinct products, no product is warned about twice. |
| Sales.LowStockWarnings | my_flask_app/app/sales.py:88-95 | The loop produces the text of each low-stock warning, in merge order. |
| Sales.PlanSaleSound | my_flask_app/app/sales.py:131-149 | A sale that passes validation has a non-empty merged request with distinct ids. Each product exists and has at least the merged quantity in stock. The lines are the priced summaries, and the total is their value at the database prices. |
| Sales.PlanSale | my_flask_app/app/sales.py:131-149 | Validation fails only with the errors of combine_items, fetch_products and check_stock, never db_error. A successful plan carries the merge of the request and one line summary per merged product. |
| Sales.PlanSaleSucceedsIff | my_flask_app/app/sales.py:131-149 | The pipeline before the writes succeeds if and only if the items merge, every merged product exists, and no merged quantity exceeds its stock. |
| Sales.ResolvePaymentMethod | my_flask_app/app/sales.py:236-242 | A missing or empty payment method becomes "cash". Otherwise the lower-cased value is accepted exactly when it is one of cash, credit, qr or wallet, and invalid_payment_method is reported when it is not. |
| Sales.PaymentMethodIgnoresCase | my_flask_app/app/sales.py:236 | A method and its lower-cased form are resolved the same way. |
| Sales.QrPayloadIdentifiesSale | my_flask_app/app/sales.py:113-118 | The payload `PAYMENT\|TX:<id>\|AMT:<amount with two decimals>` is unique per transaction. Two equal payloads have equal transaction ids and equal amounts. |
| Text.CentsTextInjective | my_flask_app/app/sales.py:118 | Distinct amounts in cents print as distinct two-decimal texts. |
| Text.IntTextInjective | my_flask_app/app/sales.py:118 | Distinct integers print as distinct decimal texts. |
| Text.NumeralRoundTrip | my_flask_app/app/sales.py:118 | The decimal numeral of n reads back as n. |
| Text.LowerIdempotent | my_flask_app/app/sales.py:236 | Lower-casing is idempotent. |
| QrTracker.Observe | my_flask_app/app/sales.py:331-333 | A pending session becomes expired once strictly more than 300 seconds have passed since it was created. Any other session is unchanged, and the amount and creation time never change. |
| QrTracker.ObserveLater | my_flask_app/app/sales.py:331-333 | Observing at one time and then at a later time is the same as observing at the later time only. |
| QrTracker.PollIn | my_flask_app/app/sales.py:320-334 | A poll changes at most the polled session, and only as `Observe` says. It adds and removes no sessions. |
| QrTracker.PollReply | my_flask_app/app/sales.py:320-334 | An untracked id answers "unknown". A tracked one answers with its amount and its status after expiry is applied. |
| QrTracker.MarkPaidIn | my_flask_app/app/sales.py:337-349 | Marking paid sets the session's status to paid and leaves its amount and creation time. An untracked id gets a new paid session with amount 0 created now. No other session changes. |
| QrTracker.OpenIn | my_flask_app/app/sales.py:197-203 | Opening records a pending session with the sale's amount and creation time, and leaves the other sessions unchanged. |
| QrTracker.Tracker.Open | my_flask_app/app/sales.py:197-203 | The `TX_STATUS` table after the insertion is `OpenIn` of the table before it. |
| QrTracker.Tracker.Poll | my_flask_app/app/sales.py:320-334 | The table after the poll is `PollIn` of the table before it, and the answer is `PollReply`. |
| QrTracker.Tracker.MarkPaid | my_flask_app/app/sales.py:337-349 | The table after the call is `MarkPaidIn` of the table before it. |
| QrTracker.PaidIsFinal | my_flask_app/app/sales.py:320-349 | While no new sale reuses the id, a paid session stays paid with the same amount, whatever polls and mark-paid calls follow. |
| QrTracker.SettledIsFinal | my_flask_app/app/sales.py:320-349 | While no new sale reuses the id, an expired or paid session never becomes pending again, and its amount does not change. |
| QrTracker.PollAfterLifetimeSettles | my_flask_app/app/sales.py:332-333 | Once a poll happens more than 300 seconds after creation, the session is expired or paid from then on. |
| QrTracker.ExpiryTimeline | my_flask_app/app/sales.py:320-349 | An example: a session is still pending at exactly 300 s, expired at 301 s, and paid after a later mark-paid call. |
| SalesCommit.ApplySaleEffect | my_flask_app/app/sales.py:173-181 | The stock update keeps every product's name and price. It lowers the product's quantity by its merged sold quantity and raises its total sales by the same amount. Products not sold are untouched. |
| SalesCommit.ApplySale | my_flask_app/app/sales.py:173-181 | The stock update neither adds nor drops a product: the table keeps exactly its keys. What happens to each product is `SalesCommit.ApplySaleEffect`. |
| SalesCommit.UnsoldUnchanged | my_flask_app/app/sales.py:173-181 | A product that is not in the sale keeps its row unchanged. |
| SalesCommit.StockPlusSoldConserved | my_flask_app/app/sales.py:177 | For every product, stock plus units sold is the same before and after a sale. |
| SalesCommit.PlannedSaleKeepsStock | my_flask_app/app/sales.py:145-181 | A sale that passed the stock check leaves no stock negative, and lowers each sold product's stock by exactly its merged quantity. |
| SalesCommit.LedgerMatchesTotal | my_flask_app/app/sales.py:149-170 | The recorded transaction lines (unit price times quantity) add up to the total written in the header. |
| SalesCommit.LedgerLines | my_flask_app/app/sales.py:163-170 | One ledger row per line summary, in order, carrying the new transaction id, the name, the unit price and the quantity. |
| SalesCommit.Store.InsertHeader | my_flask_app/app/sales.py:152-160 | The header is appended with the next row id, and that id is returned. Nothing else changes, and the store invariant is kept: ids increase and every line has a header. |
| SalesCommit.Store.InsertLine | my_flask_app/app/sales.py:164-170 | One line under an existing header is appended to the ledger, and nothing else changes. |
| SalesCommit.Store.RecordLines | my_flask_app/app/sales.py:162-170 | The ledger grows by exactly the ledger rows of the line summaries, and nothing else changes. |
| SalesCommit.Store.UpdateStock | my_flask_app/app/sales.py:174-181 | One product's update, as `UpdateStockIn`, and nothing else changes. |
| SalesCommit.Store.ApplyUpdates | my_flask_app/app/sales.py:172-181 | The product table becomes `ApplySale` of the old one, and nothing else changes. |
| SalesCommit.Prepare | my_flask_app/app/sales.py:131-149 | The validation steps in order, stopping at the first error: merge, lookup, stock check, then pricing. The result equals the pure `PlanSale`. |
| SalesCommit.Commit | my_flask_app/app/sales.py:152-183 | The writes: one header with the next id, the plan's ledger lines under it, and the stock and sales update. The store invariant is kept and the new id is returned. |
| SalesCommit.ReceiptOf | my_flask_app/app/sales.py:185-208 | The receipt has the transaction id, the lines, the total, the method, the timestamp and the low-stock texts. For "qr" it also holds the payload and expires_in 300. |
| SalesCommit.SellProducts | my_flask_app/app/sales.py:125-216 | Succeeds if and only if validation succeeds and no write fails. On a failure (validation, or a write before the commit) the store and the QR table are unchanged and the first error is reported (db_error for a failed write). On success exactly one header, the sale's ledger lines and the stock update are written, the receipt is returned, and a pending QR session is opened exactly for "qr". |
| SalesCommit.CheckoutSale | my_flask_app/app/sales.py:226-248 | A body without items gives missing_items, and an unknown payment method gives invalid_payment_method; in both cases nothing is written. Otherwise the sale runs with the resolved method and the default threshold of 5, with the outcome of `SellProducts`: on success the new header, ledger lines, stock and sales counts, next id and (for "qr") pending QR session are stated exactly; a failure leaves the store and the QR table unchanged. |
| SalesReport.HeaderWithId | my_flask_app/app/sales_report.py:19 | The header found for a line has the line's transaction id; none is found only when no header has it. |
| SalesReport.JoinedRows | my_flask_app/app/sales_report.py:18-19 | The inner join gives one row per line that has a header, carrying the header's date and total and the line's quantity. Every joined row comes from such a line. Ledger order is kept (`SalesReport.JoinedAppend`, `SalesReport.JoinedOne`). |
| SalesReport.Joined | my_flask_app/app/sales_report.py:18-19 | The join yields at most one row per ledger line. |
| SalesReport.JoinedOne | my_flask_app/app/sales_report.py:18-19 | One line joins to one row with its header's date and total if a header has its id, and to none otherwise. |
| SalesReport.JoinedAppend | my_flask_app/app/sales_report.py:18-19 | The join keeps ledger order: the rows of two ledgers put together are those of the first followed by those of the second. |
| SalesReport.InRangeIsChronological | my_flask_app/app/sales_report.py:25-30 | For valid dates, the text comparisons `date(t) >= date(from)` and `date(t) <= date(to)` are the calendar order. |
| SalesReport.Matching | my_flask_app/app/sales_report.py:24-30 | The filtered rows are exactly the joined rows whose day is in the requested range. A bound that SQLite reads as NULL matches nothing. Row order is kept (`SalesReport.MatchingAppend`, `SalesReport.MatchingOne`). |
| SalesReport.MatchingOne | my_flask_app/app/sales_report.py:24-30 | One row is kept exactly when its day is in range. |
| SalesReport.MatchingSnoc | my_flask_app/app/sales_report.py:24-30 | Filtering a list of rows filters all rows but the last, then keeps the last if its day is in range. |
| SalesReport.MatchingAppend | my_flask_app/app/sales_report.py:24-30 | The filter keeps the join order: filtering two lists of rows put together gives the filtered first followed by the filtered second. |
| SalesReport.UnboundedKeepsAll | my_flask_app/app/sales_report.py:25-30 | Without bounds no row is filtered out. |
| SalesReport.GroupKeyedAscending | my_flask_app/app/sales_report.py:33-38 | The groups come out in strictly ascending key order, as `ORDER BY key ASC` orders them. |
| SalesReport.GroupsAreSums | my_flask_app/app/sales_report.py:14-38 | Each group's amount and quantity are the sums over exactly the rows with its key. Its period is the day of one of those rows. Every row's key has a group. |
| SalesReport.GroupedReport | my_flask_app/app/sales_report.py:7-43 | For daily, weekly or monthly grouping the report has one row per group, in ascending key order, with the group's sums. It is empty exactly when no row matches. |
| SalesReport.QuerySalesReport | my_flask_app/app/sales_report.py:7-48 | An exception yields `[]`. Any group_by other than daily, weekly or monthly gives exactly one row; the grouped case is `SalesReport.GroupedReport`. |
| SalesReport.UngroupedReportHasOneRow | my_flask_app/app/sales_report.py:13-40 | Any other group_by value adds no GROUP BY, so the aggregate returns exactly one row. That row is all NULL exactly when nothing matches. |
| SalesReport.DailyReportIsChronological | my_flask_app/app/sales_report.py:34 | In a daily report, every row of an earlier period is from an earlier calendar day than every row of a later period. |
| SalesReport.JsonRows | my_flask_app/app/sales_report.py:58-64 | One JSON object per report row, carrying its period, with a NULL sum replaced by 0. |
| SalesReport.SalesReportJson | my_flask_app/app/sales_report.py:53-64 | A failed query gives `[]`. Without a group parameter the response is the JSON of the daily report, and an ungrouped request gives one object. |
| SalesReport.SalesReportJsonDefaults | my_flask_app/app/sales_report.py:53-64 | Without a group parameter the endpoint reports daily. A range that matches nothing gives [] when grouped, and one zero row otherwise. |
| SalesReport.TotalCountedPerLine | my_flask_app/app/sales_report.py:16-19 | As written, a sale of 10.00 with two lines is reported as 20.00: the header total is summed once per joined line. |
| SalesReport.CorrectedGroupsAreSums | my_flask_app/app/sales_report.py:13-38 | The corrected grouped report has one row per group, in ascending key order, and each transaction appears once. Each group's amount is the sum of the totals of the distinct matching transactions with its key, and its quantity is the sum of their lines. |
| SalesReport.TotalCountedOnce | my_flask_app/app/sales_report.py:16-19 | The corrected report gives 10.00 and 3 units for the two-line sale of 10.00. |
| SalesReport.PerTransactionOnce | my_flask_app/app/sales_report.py:18-19 | With unique header ids, the per-transaction rows name each transaction once. |
| Calendar.DayKeyOrder | my_flask_app/app/sales_report.py:15-34 | The text order of `date()` keys is the chronological order of valid dates. |
| Calendar.DayKeyGroupsByDay | my_flask_app/app/sales_report.py:15-34 | Two valid dates have the same `date()` key exactly when they are the same day. |
| Calendar.MonthKeyGroupsByMonth | my_flask_app/app/sales_report.py:38 | Two valid dates have the same `%Y-%m` key exactly when they are in the same month of the same year. |
| Calendar.MonthKeyOrder | my_flask_app/app/sales_report.py:38 | The text order of `%Y-%m` keys is the order of (year, month). |
| Calendar.MondayWeekCountsMondays | my_flask_app/app/sales_report.py:36 | `%W` is the number of Mondays up to the day, in its year. |
| Calendar.WeekZeroBeforeFirstMonday | my_flask_app/app/sales_report.py:36 | An example: 1 January 2023, a Sunday, is week `2023-W00`, and 2 January is `2023-W01`. |
| Text.LessTransitive | my_flask_app/app/sales_report.py:34-38 | The BINARY text order used by ORDER BY is transitive. |
| Text.LessTotal | my_flask_app/app/sales_report.py:34-38 | The BINARY text order is total on distinct texts. |
| Text.PaddedOrder | my_flask_app/app/sales_report.py:34-38 | Zero-padded numerals of one width compare as text the way their values compare. |
| CheckoutCart.IndexOf | my_flask_app/static/checkout.js:101 | `cart.find` by product id returns the first entry with that id, or nothing when no entry has it. |
| CheckoutCart.Cart.Find | my_flask_app/static/checkout.js:101 | The search loop returns the `IndexOf` position. |
| CheckoutCart.AddQuantity | my_flask_app/static/checkout.js:66 | A quantity that is not a positive number becomes 1, so the quantity added is always positive. |
| CheckoutCart.AddItemEffect | my_flask_app/static/checkout.js:59-91 | An id that is not a number, or a failed lookup, leaves the cart unchanged. A product already in the cart has its quantity raised, with every other entry unchanged. A new product is appended at the end. Distinct ids and positive quantities are kept. |
| CheckoutCart.AddItemTo | my_flask_app/static/checkout.js:59-91 | An id that is not a number, or a failed lookup, leaves the cart as it was. Otherwise the cart keeps its length (the entry grows) or gains one entry; `CheckoutCart.AddItemEffect` says which. |
| CheckoutCart.AddItemTotal | my_flask_app/static/checkout.js:59-91 | Adding raises the total by the line's price times the added quantity, using the price already in the cart for an existing product. |
| CheckoutCart.RemoveItemEffect | my_flask_app/static/checkout.js:94-97 | Removing deletes exactly the entry with the id, if there is one, and keeps the order of the rest. Afterwards the id is absent and the cart stays well formed. |
| CheckoutCart.Without | my_flask_app/static/checkout.js:94-97 | `cart.filter` never lengthens the cart and leaves no entry with the removed id (`CheckoutCart.Lacks`). |
| CheckoutCart.LacksMeansNone | my_flask_app/static/checkout.js:94-97 | `Lacks` holds exactly when no entry of the cart carries the id. |
| CheckoutCart.RemoveItemTotal | my_flask_app/static/checkout.js:94-117 | Removing lowers the total by the removed entry's line total, or leaves it when the id was absent. |
| CheckoutCart.UpdateQtyEffect | my_flask_app/static/checkout.js:100-112 | An unknown id changes nothing. A quantity that is not a positive number removes the entry. Otherwise only that entry's quantity changes. The cart stays well formed. |
| CheckoutCart.UpdatedQty | my_flask_app/static/checkout.js:100-112 | Updating a quantity never lengthens the cart; its exact effect is `CheckoutCart.UpdateQtyEffect`. |
| CheckoutCart.TotalAfterUpdate | my_flask_app/static/checkout.js:110-117 | Replacing one entry changes the total by the difference of the two line totals. |
| CheckoutCart.TotalConcat | my_flask_app/static/checkout.js:115-117 | The total of two carts put together is the sum of their totals. |
| CheckoutCart.TotalOf | my_flask_app/static/checkout.js:115-117 | The total of a cart with no negative price or quantity is not negative. How it changes under each edit is stated by `AddItemTotal`, `RemoveItemTotal` and `TotalAfterUpdate`. |
| CheckoutCart.Cart.AddItem | my_flask_app/static/checkout.js:59-91 | The cart after the call is `AddItemTo` of the cart before it, and stays well formed. |
| CheckoutCart.Cart.RemoveItem | my_flask_app/static/checkout.js:94-97 | The cart after the call is the old cart without the id, and stays well formed. |
| CheckoutCart.Cart.UpdateQty | my_flask_app/static/checkout.js:100-112 | The cart after the call is `UpdatedQty` of the old cart, and stays well formed. |
| CheckoutCart.Cart.Pay | my_flask_app/static/checkout.js:185-213 | An empty cart sends nothing and stays empty. Otherwise the request holds one {product_id, quantity} per entry in cart order, with no payment method. The cart is cleared only when the checkout succeeded. |
| CheckoutCart.PayRequestCombines | my_flask_app/static/checkout.js:191-197 | The server reads the pay request as a cash sale. It merges the request into exactly the cart's (id, quantity) entries, in cart order. |
| CheckoutCart.Cart.Cancel | my_flask_app/static/checkout.js:216-227 | The cart is cleared exactly when it was non-empty and the user confirmed. |
| CheckoutCart.SessionExample | my_flask_app/static/checkout.js:59-117 | An example: adding a product twice merges its quantities, an invalid quantity counts as 1, the total is 15.00, and quantity 0 removes the entry. |
| InventoryReport.StatusOf | my_flask_app/static/inventory-report.js:19-23 | "Out of stock" exactly when qty is at most 0. "Low stock" exactly when 0 < qty <= threshold. "In stock" exactly when qty is above both. |
| InventoryReport.Valuation | my_flask_app/static/inventory-report.js:24 | A product with no stock is worth 0, and a non-negative price and quantity give a non-negative value. |
| InventoryReport.RenderedRows | my_flask_app/static/inventory-report.js:26-28 | With the box checked, the rows shown are exactly the products with qty at most the threshold, each once, in their original order. Unchecked, all products are shown. |
| InventoryReport.KeepLow | my_flask_app/static/inventory-report.js:28 | The filter never lengthens the list and keeps only products at or below their threshold. |
| InventoryReport.Rendered | my_flask_app/static/inventory-report.js:26-28 | The rows shown never outnumber the products, and with the box checked all of them are low; `InventoryReport.RenderedRows` states exactly which. |
| InventoryReport.OnlyLowAgreesWithStatus | my_flask_app/static/inventory-report.js:19-28 | With a non-negative threshold, the filter keeps exactly the products whose status is not "In stock". With a negative threshold, an out-of-stock product above the threshold is not kept. |
| InventoryReport.CsvRoundTrip | my_flask_app/static/inventory-report.js:8 | Quoting every value, doubling its quotes, joining with commas and newlines reads back as the same rows. |
| InventoryReport.Csv | my_flask_app/static/inventory-report.js:8 | A file whose first record has a field begins with a quote; `InventoryReport.CsvRoundTrip` states that it reads back as the records. |
| InventoryReport.ReadQuotedEscape | my_flask_app/static/inventory-report.js:8 | A value with its quotes doubled, followed by a closing quote, reads back as the value. |
| InventoryReport.ExportFile | my_flask_app/static/inventory-report.js:46-49 | The exported file reads back as the header row, followed by one row per product on screen in screen order. Each row holds the code, name, qty, threshold, price, value and status. |
| InventoryReport.ExportRow | my_flask_app/static/inventory-report.js:46-48 | Each product gives one cell per header column. |
| InventoryReport.AmountTextDropsTrailingZero | my_flask_app/static/inventory-report.js:8 | An example: `String()` of 12.50 is "12.5". |
| InventoryReport.AmountTextInjective | my_flask_app/static/inventory-report.js:8 | `String(v)` of a price or value in cents never writes two different amounts the same way: sign, digits and the shortest fraction determine the amount. |
| InventoryReport.FractionTextInjective | my_flask_app/static/inventory-report.js:8 | The fraction part (nothing, one digit, or two digits after the point) determines the cents. |

## Left out

- Sales.Field: the outcome of Python's `int()` on a JSON value (a value, or an error) is taken as given. The rules for strings, floats and booleans are not modelled.
- Sales.FetchProducts: integers are unbounded here. A product id outside SQLite's signed 64-bit INTEGER range makes the query binding at sales.py:43-50 raise `OverflowError`, and `int()` on a JSON `Infinity` raises `OverflowError` at sales.py:28; neither is caught (sales.py:30 and sales.py:212 catch other exceptions, and combine_items runs before the `try`), so the request fails with a server error. The model has no such outcome: it reports product_not_found for the huge id, and `Sales.Field` can only give the infinite value as not integral (invalid_item).
- Sales.CheckLine: the detail text of an error is not modelled. invalid_quantity carries the product id after `int()`, whereas the source's detail prints the raw `product_id` value.
- Money is integer cents, and floating point is not modelled. The server's `round(..., 2)` and float sums are exact here. The browser's float products `price * qty` and `String(v)` on a fraction are modelled on cents; the shortest decimal text is `AmountText`.
- Text.Lower: only ASCII letters are lower-cased. Python's `str.lower()` on other letters is not modelled.
- SalesReport.Aggregate: the `period` of a grouped row is the day of one row of the group; SQLite picks it from the last row it read. The model takes the last row in join order, and proves only that the period is the day of some row of the group (SalesReport.GroupsAreSums). The same holds for the ungrouped row.
- SalesReport.QuerySalesReport: an exception in the query yields `[]`. It is the parameter `fault`, and the traceback print is left out.
- `date(?)`: SQLite's parsing of the `from` and `to` parameters is abstracted as `Bound`, either a date or NULL.
- SalesCommit.SellProducts: `sqlite3.Error` is not among the exceptions the source catches, so such an error propagates. The model has only the caught path before the commit, `storeFault`, under which nothing is written. Exceptions raised by `int()`/`float()` on stored rows are not modelled.
- SalesCommit.SellProducts: a caught error after `conn.commit()` (sales.py:197-207: recording the QR status, or `_make_qr_png_b64` raising `OSError`/`ValueError`) returns db_error although the sale is already committed; the model's db_error path (`storeFault`) happens only before the commit and leaves the store unchanged, so this committed-but-reported-failed outcome is not modelled.
- SalesCommit.SellProducts: concurrent checkouts, which could both pass the stock check before either writes, are not modelled. The model is one sequential call.
- QrTracker: the status "canceled" is declared but no code path produces it. No transition to it is modelled.
- The QR PNG rendering (`_make_qr_png_b64`, `/qr.png`) is left out: it is image encoding in a library. The receipt carries only the payload.
- Flask request parsing and JSON responses with status codes are left out. So are `get_product` and `search_products`, the connection helper, `run.py`, the CRUD endpoints and `product-management.js`.
- CheckoutCart.Numeric: `parseInt` and `Number` are abstracted as a number or NaN. Fractional quantities are not modelled, because the number input steps by 1.
- CheckoutCart: the DOM rendering, `alert`, `confirm`, `fetch` and `formatCurrency` are left out. The fetched product, the confirmation and the checkout outcome are parameters.
- CheckoutCart.Cart.Pay: the cart is read and then cleared in one step. Edits made while the checkout request is pending (checkout.js:191-206) are not modelled, so the model does not show that an item added meanwhile is cleared unsold.
- InventoryReport: loading products from `localStorage` and `JSON.parse` are left out. The filter and status compare numbers, whereas the source compares whatever values the stored JSON holds, such as strings.

## Findings

| source | as written | input that shows it | evidently intended | confidence | as-written member | corrected member |
|---|---|---|---|---|---|---|
| my_flask_app/app/sales_report.py:16-19 | `SUM(tt.total_amount)` runs over the join of lines with headers, so a transaction's total is added once per line | one sale of 10.00 with two lines (1 x 4.00 and 2 x 3.00) on one day: the daily row reports total_amount 20.00 | each transaction's total counted once per period (10.00), with the quantity still summed over lines (3) | not executed | SalesReport.TotalCountedPerLine | SalesReport.CorrectedGroupsAreSums |
