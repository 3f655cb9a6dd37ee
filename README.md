# Pupusería order system: a verified model of its core

This project models the core of the pupusería order system in Dafny: an Express
back end over PostgreSQL and a React order form. A pupusería sells pupusas. Each
product exists in two doughs ("masa": maíz and arroz). Some products are small
ones sold under the "3x1$" promotion: three units for one dollar. The model covers:

- **Pricing** (`pricing.dfy`). The line-total rule, with money in integer cents and
  the bundle price as the constant 100. Also the delivery cost and the order total.
- **Orders** (`orders.dfy`). The order routes the server mounts: create, replace and
  delete an order together with its lines, each all-or-nothing. An `OrderStore`
  class holds the `orders` and `order_items` tables. Each of its methods is proved
  equal to a function on a `Db` value, and lemmas about those functions prove the
  outcomes and that the tables stay consistent.
- **Legacy orders** (`legacy_orders.dfy`). The unmounted copy of those routes, which
  writes the unit price and line total into the request's item objects in place
  (an `array`). It prices lines by the products' `unit_price` column
  (backend/src/routes/order.js:209, 341), which the product routes never write,
  where the mounted routes read `price`. Its handlers take that read as their own
  lookup, `unitPrices`. Each is proved to leave the tables as the mounted routes
  would with `unitPrices` as their lookup. So the two copies agree only when
  `unitPrices` equals the `price` lookup.
- **Catalogue** (`catalogue.dfy`). The product routes:
  - create writes a maíz row and an arroz row;
  - update and delete act on every row of one name;
  - delete is refused while an order line uses the product;
  - the listing is grouped by name.
- **Open days** (`open_days.dfy`). A table from dates to an open flag, where a date
  with no record counts as open. It supports upsert, bulk upsert, delete and a
  ranged listing, latest first. Dates are checked only against the `YYYY-MM-DD`
  shape (`dates.dfy`), which is the `full-date` of section 5.6 of RFC 3339.
- **Reports** (`reports.dfy`, `report_export.dfy`). A day's totals, the product
  summary and top five, and the CSV export with its summary lines.
- **Order form** (`new_order.dfy`). The client's draft list (guarded add,
  remove by index, the submit checks), its previewed subtotals and total, and how
  the sent request is priced by the server.

`text.dfy` holds the text order that sorting and date comparison use, the join and
split of CSV lines, and the decimal renderings the export writes. `common.dfy`
holds `Option`, `Result` and `Outcome`.

The database is modelled as in-memory sequences of rows in id order (date order for
`open_days`). A transaction's BEGIN, ROLLBACK and COMMIT become one atomic state
change: every error path leaves the tables exactly as they were. HTTP statuses are
kept as error tags, with a `StatusCode` function per module.

Deleting an order also deletes its lines. The route deletes only from `orders`
(backend/src/routes/orders.js:393-396), so this relies on a cascading foreign key
from `order_items` to `orders`. The schema is not part of this model; the model
assumes that cascade.

Three points of the code the model keeps:

- Each line total is rounded to two decimals (backend/src/routes/orders.js:17, 19).
  In integer cents every line total is already exact, so there is nothing to round.
- The promotion never costs more than the plain price when three units cost at
  least a dollar (`Pricing.PromotionNeverDearer`). When three units cost less, a
  line of three or more costs more (`Pricing.PromotionDearerWhenCheap`).
- Create refuses a missing business day (backend/src/routes/orders.js:151-156).
  Update does not check it (backend/src/routes/orders.js:271-337) and stores
  whatever the request carries.

## Model

| member | source | states |
|---|---|---|
| Pricing.LineTotalMatchesReference | backend/src/routes/orders.js:14-21 | A plain line costs quantity × unit price (a sum of repeated units). A 3x1$ line costs 100 cents per complete group of three plus the unit price per remaining unit. Both are checked against separate recursive definitions. |
| Pricing.PromotionStep | backend/src/routes/orders.js:15-18 | Three more units on a 3x1$ line add exactly 100 cents. |
| Pricing.PromotionNeverDearer | backend/src/routes/orders.js:14-21 | When three units cost at least a dollar at the unit price, the promotion never charges more than the plain price. |
| Pricing.PromotionDearerWhenCheap | backend/src/routes/orders.js:14-21 | When three units cost under a dollar, a promotion line of three or more units costs more than the plain price. |
| Pricing.PricingExamples | backend/src/routes/orders.js:14-21 | Worked values: 1 × 250 = 250; 3 small = 100; 4 small at 250 = 350; 5 small at 100 = 300. |
| Pricing.PickupIgnoresDeliveryCost | backend/src/routes/orders.js:204-205 | A pickup's total is the sum of its line totals, whatever delivery cost was sent. |
| Text.LessIrreflexive | backend/src/routes/products.js:33-34 | No text sorts before itself. |
| Text.LessAsymmetric | backend/src/routes/products.js:33-34 | Text order is asymmetric. |
| Text.LessTransitive | backend/src/routes/products.js:33-34 | Text order is transitive. |
| Text.LessTotal | backend/src/routes/products.js:33-34 | Any two different texts are ordered one way or the other. |
| Text.InsertName | backend/src/routes/products.js:33-34 | Inserting a name keeps the list strictly ascending. The result holds exactly the old names plus the new one. |
| Text.SplitJoin | backend/src/routes/reports.js:166-180 | Fields joined with a separator none of them contains split back into the same fields. |
| Text.NatToStringRoundTrip | backend/src/routes/reports.js:194 | The decimal rendering of a count reads back as that count. |
| Text.CentsRoundTrip | backend/src/routes/reports.js:175-179 | The two-decimal rendering of an amount in cents reads back as the same amount, negative amounts included. |
| Dates.FormatDateRoundTrip | backend/src/routes/openDays.js:58 | Writing a year below 10000 and a month and day below 100 as `YYYY-MM-DD` gives text that passes the shape test and reads back as the same fields. |
| Dates.FieldsRoundTrip | backend/src/routes/openDays.js:58 | Every text that passes the shape test is the writing of its own fields. |
| Dates.ShapeOnly | backend/src/routes/openDays.js:58 | The test accepts 2024-02-30 and 2024-99-99. It rejects 2024-2-3 and a date followed by a time. |
| Dates.DigitsLess | backend/src/routes/openDays.js:26-33 | Two digit strings of one length compare as text exactly as their numbers compare. |
| Dates.LessIsChronological | backend/src/routes/openDays.js:26-36 | For shape-valid dates, one sorts before the other as text exactly when its number year·10000 + month·100 + day is smaller, so the database's text order is calendar order. |
| Dates.TextOrder | backend/src/routes/openDays.js:36 | Shape-valid dates compare as text by their year digits, then their month digits, then their day digits. |
| Orders.PriceItemsAllPass | backend/src/routes/orders.js:170-202 | The validation loop succeeds exactly when every line is well formed and its product exists. |
| Orders.FirstOffender | backend/src/routes/orders.js:170-190 | The request's error is the error of its first failing line. |
| Orders.PriceItemsSuccess | backend/src/routes/orders.js:179-199 | On success, line k is request line k. It carries the product's price at write time and the pricing rule's total, in request order. |
| Orders.FailureSticks | backend/src/routes/orders.js:170-190 | Once a prefix of the lines fails, the whole request fails with that error. |
| Orders.LinesOfItemRows | backend/src/routes/orders.js:216-225 | The rows inserted for an order hold exactly its priced lines, in order, and no lines of any other order. |
| Orders.LinesOfWithout | backend/src/routes/orders.js:290 | Deleting an order's lines empties that order and leaves every other order's lines as they were. |
| Orders.LinesAfterInsert | backend/src/routes/orders.js:216-225 | After the insert loop, the new order has exactly its lines and every other order keeps its own. |
| Orders.LinesAfterReplace | backend/src/routes/orders.js:290 | Deleting an order's lines and inserting new ones gives that order exactly the new lines and keeps every other order's lines. |
| Orders.InsertKeepsTotals | backend/src/routes/orders.js:201-225 | A new order whose total is its lines' sum plus its delivery cost keeps every stored total equal to its lines' sum plus its delivery cost. |
| Orders.ReplaceKeepsTotals | backend/src/routes/orders.js:326-346 | Replacing an order's row and lines keeps that total invariant. |
| Orders.RemoveKeepsTotals | backend/src/routes/orders.js:391-401 | Deleting an order with its lines keeps that total invariant. |
| Orders.CreateKeepsConsistent | backend/src/routes/orders.js:165-227 | Create preserves the table invariant: ids ascend below their sequences, every line belongs to a stored order, every total is consistent. |
| Orders.CreateOrderOutcome | backend/src/routes/orders.js:151-227 | Create fails exactly when a check fails, in order: a missing or empty business day, no items, then the first bad line. A failure changes nothing. A success appends one new order with the request's business day, delivery flag and charge (the cost sent for a delivery, 0 for a pickup). Its lines are the priced request lines, with total = Σ line totals + the delivery cost for a delivery, and no other order's lines change. |
| Orders.UpdateKeepsConsistent | backend/src/routes/orders.js:288-348 | Update preserves the table invariant. |
| Orders.UpdateOrderOutcome | backend/src/routes/orders.js:273-348 | Update fails exactly when a check fails, in order: an unknown order (404), no items, then the first bad line. A failure, including one after the lines were deleted, leaves the tables as they were. A success writes the answered row in place of the order's row: the request's business day, delivery flag and charge, and the recomputed total. Every other order's row is kept at its index. The order gets exactly the request's priced lines, and no other order's lines change. |
| Orders.ReplaceOrder | backend/src/routes/orders.js:333-337 | The `UPDATE … WHERE id` keeps the table's length, puts the new row at the index that had its id, and keeps every other row. |
| Orders.DeleteKeepsConsistent | backend/src/routes/orders.js:391-401 | Delete preserves the table invariant. |
| Orders.DeleteOrderOutcome | backend/src/routes/orders.js:391-401 | Delete answers 404 and changes nothing exactly when the order is absent. Afterwards that order and its lines are gone, and every other order's lines are untouched. |
| Orders.UpdateIdempotent | backend/src/routes/orders.js:266-382 | Sending the same update twice gives the same response, the same total and the same lines. |
| Orders.PriceRequest | backend/src/routes/orders.js:167-202 | The loop returns the validation result of the whole request. On success its running total is the sum of the line totals. |
| Orders.OrderStore.InsertLines | backend/src/routes/orders.js:216-225 | The insert loop appends one row per line, in order, under consecutive ids, and changes nothing else. |
| Orders.OrderStore.Create | backend/src/routes/orders.js:145-261 | The POST handler leaves the tables and answers exactly as the create function says, and keeps the invariant. |
| Orders.OrderStore.CreateTransaction | backend/src/routes/orders.js:151-227 | From the checks to COMMIT, the handler's state change equals the create function. |
| Orders.OrderStore.Update | backend/src/routes/orders.js:266-382 | The PUT handler leaves the tables and answers exactly as the update function says, and keeps the invariant. |
| Orders.OrderStore.UpdateTransaction | backend/src/routes/orders.js:273-348 | Deleting the lines, then pricing, then restoring on failure, equals the update function. |
| Orders.OrderStore.Delete | backend/src/routes/orders.js:387-410 | The DELETE handler equals the delete function and keeps the invariant. |
| LegacyOrders.LineTotalsAgree | backend/src/routes/order.js:30-40 | This copy of the line-total rule equals the mounted one on every input. |
| LegacyOrders.AnnotatedReadsBack | backend/src/routes/order.js:221-226 | After validation, every item object reads back exactly the line the mounted routes would store. |
| LegacyOrders.AnnotateItems | backend/src/routes/order.js:195-227 | The in-place loop writes each line's unit price and total into the item objects. It reports the validation result of the whole request and the sum of line totals. On failure, exactly the lines before the first bad one have been written into. |
| LegacyOrders.InsertItems | backend/src/routes/order.js:245-253 | The insert loop stores, from the annotated objects, exactly the priced lines in order. |
| LegacyOrders.LegacyCreate | backend/src/routes/order.js:170-293 | The POST handler leaves the tables and answers as the mounted create would with the `unit_price` read as its lookup. On success every item object carries its unit price and line total. |
| LegacyOrders.LegacyInsert | backend/src/routes/order.js:192-256 | From BEGIN to COMMIT or ROLLBACK, the handler equals the mounted create with the `unit_price` read as its lookup. |
| LegacyOrders.LegacyUpdate | backend/src/routes/order.js:296-419 | The PUT handler leaves the tables and answers as the mounted update would with the `unit_price` read as its lookup. It annotates the item objects on success. |
| LegacyOrders.LegacyReplace | backend/src/routes/order.js:321-384 | Deleting the lines, annotating, then restoring or reinserting equals the mounted update with the `unit_price` read as its lookup. |
| Catalogue.FindRow | backend/src/routes/products.js:86-96 | Finds a row exactly when some row has the id, and the row found has that id. |
| Catalogue.CreateKeepsWellKept | backend/src/routes/products.js:47-77 | Create keeps the catalogue invariant: ids ascend below the sequence, masas are maíz or arroz, every name has both, and maíz comes first. |
| Catalogue.CreateProductAddsPair | backend/src/routes/products.js:54-64 | Create appends exactly two rows, maíz then arroz, with one name and one price, `is_small` false unless sent true, and fresh ids above all stored ones. It answers with the maíz row. |
| Catalogue.PriceArgument | backend/src/routes/products.js:108 | A missing price, or a price of 0, is sent as NULL. Any other price is sent as given. |
| Catalogue.UpdateKeepsWellKept | backend/src/routes/products.js:80-119 | Update keeps the catalogue invariant. |
| Catalogue.UpdateProductOutcome | backend/src/routes/products.js:86-109 | Update answers 404 and changes nothing exactly for an unknown id. Otherwise it changes exactly the rows sharing the current name of that id: each field sent replaces the stored one, a missing field or a zero price keeps it, and ids and masas stay. |
| Catalogue.WithoutName | backend/src/routes/products.js:156 | The delete keeps exactly the rows of other names. |
| Catalogue.DeleteKeepsWellKept | backend/src/routes/products.js:122-165 | Delete keeps the catalogue invariant. |
| Catalogue.DeleteProductOutcome | backend/src/routes/products.js:126-156 | Delete answers 404 exactly for an unknown id, and 400 exactly when an order line uses a row of that name; both change nothing. Otherwise every row of that name goes, and only those rows. |
| Catalogue.PriceLookup | backend/src/routes/orders.js:179-182 | The price lookup knows exactly the stored ids. |
| Catalogue.PriceLookupFindsRow | backend/src/routes/orders.js:179-182 | The lookup of a row's id gives that row's price and promotion flag. |
| Catalogue.Names | backend/src/routes/products.js:33-34 | The grouped names are strictly ascending and are exactly the names in the table. |
| Catalogue.Group | backend/src/routes/products.js:33 | A group holds exactly the rows of its name. |
| Catalogue.MinId | backend/src/routes/products.js:27 | A group's id is one of its rows' ids and no larger than any of them. |
| Catalogue.MinPrice | backend/src/routes/products.js:29 | A group's price is one of its rows' prices and no larger than any of them. |
| Catalogue.ListingOrdered | backend/src/routes/products.js:34 | The listing is in strictly ascending name order. |
| Catalogue.ListingCoversNames | backend/src/routes/products.js:25-35 | Every stored name has an entry, and every entry's name is stored. |
| Catalogue.ListingEntry | backend/src/routes/products.js:26-31 | Each entry's id and price are the least of its name's rows, and it has a small version exactly when one of them is small. |
| Catalogue.EntryLeast | backend/src/routes/products.js:27-29 | A name's entry takes the least id and the least price among that name's rows. |
| Catalogue.EntrySmall | backend/src/routes/products.js:30 | A name's entry has a small version exactly when one of its rows is small. |
| Catalogue.ListingHasBothMasas | backend/src/routes/products.js:31 | In a catalogue kept by these routes, every entry counts two masas. |
| Catalogue.ListingIdIsMaiz | backend/src/routes/products.js:27 | In a catalogue kept by these routes, an entry's id is its maíz row. |
| Catalogue.CreateKeepsSameTerms | backend/src/routes/products.js:54-64 | Creating a new name keeps every name at one price and one promotion flag. |
| Catalogue.UpdateKeepsSameTerms | backend/src/routes/products.js:101-109 | Updating keeps every name at one price and one flag, unless it renames onto another stored name. |
| Catalogue.DeleteKeepsSameTerms | backend/src/routes/products.js:156 | Deleting keeps every name at one price and one flag. |
| Catalogue.ListingIdsDistinct | backend/src/routes/products.js:27 | No two entries share an id. |
| Catalogue.ListedTermsAreStored | backend/src/routes/products.js:27-30 | With one price and flag per name, an entry's id looks up the entry's own price and flag. |
| Catalogue.ProductTable.Create | backend/src/routes/products.js:47-77 | POST /api/products equals the create function and keeps the invariant. |
| Catalogue.ProductTable.Update | backend/src/routes/products.js:80-119 | PUT /api/products/:id equals the update function and keeps the invariant. |
| Catalogue.ProductTable.Delete | backend/src/routes/products.js:122-165 | DELETE /api/products/:id equals the delete function and keeps the invariant. |
| OpenDays.LookupFindsRow | backend/src/routes/openDays.js:58-84 | A lookup answers 400 exactly for a malformed date. It gives the stored flag of a recorded date, and open for a date with no record. |
| OpenDays.Upsert | backend/src/routes/openDays.js:116-123 | The upsert keeps the dates ascending and adds no row but the new one. |
| OpenDays.UpsertAsMap | backend/src/routes/openDays.js:116-123 | Seen as a map, the table after the upsert is the old map with the date set to the flag. |
| OpenDays.PutThenLookup | backend/src/routes/openDays.js:94-133 | PUT answers 400 exactly for a malformed date, then 400 exactly for a non-boolean flag, and a failure changes nothing. After a success the date looks up as the flag sent, and every other date looks up as before. |
| OpenDays.UpsertIdempotent | backend/src/routes/openDays.js:116-123 | Upserting the same row twice equals upserting it once. |
| OpenDays.PutIdempotent | backend/src/routes/openDays.js:94-133 | Repeating a PUT changes nothing more and answers the same. |
| OpenDays.Remove | backend/src/routes/openDays.js:193-196 | The delete keeps exactly the rows of other dates. |
| OpenDays.RemoveAsMap | backend/src/routes/openDays.js:193-196 | Seen as a map, the table after the delete is the old map without that date. |
| OpenDays.DeleteRevertsToDefault | backend/src/routes/openDays.js:181-203 | DELETE answers 400 exactly for a malformed date, and 404 exactly when no record exists; both change nothing. After a success the date looks up as open again, and every other date is unchanged. |
| OpenDays.ApplyAll | backend/src/routes/openDays.js:151-166 | The bulk upserts keep the table in date order. |
| OpenDays.LaterEntryWins | backend/src/routes/openDays.js:151-166 | After a bulk upsert, each date looks up as the last shape-valid entry for it says. A date no valid entry names looks up as before. |
| OpenDays.UpsertedCount | backend/src/routes/openDays.js:150-171 | The result count equals the number of shape-valid entries, and every returned row has a valid date. |
| OpenDays.InRangeIsChronological | backend/src/routes/openDays.js:25-34 | For shape-valid dates the range filter is the calendar range, both bounds included, with one-sided and open ranges. |
| OpenDays.Listing | backend/src/routes/openDays.js:21-38 | The listing holds exactly the stored rows in range. |
| OpenDays.ListingDescending | backend/src/routes/openDays.js:36 | The listing is in strictly descending date order. |
| OpenDays.OpenDayTable.Put | backend/src/routes/openDays.js:94-133 | The PUT handler equals the put function and keeps the table in date order. |
| OpenDays.OpenDayTable.PutMany | backend/src/routes/openDays.js:138-176 | The bulk POST loop equals the bulk function: 400 for a missing or empty list, otherwise one upsert per valid entry, in order. |
| OpenDays.OpenDayTable.Delete | backend/src/routes/openDays.js:181-212 | The DELETE handler equals the delete function and keeps the table in date order. |
| Reports.DayOrders | backend/src/routes/reports.js:37-38 | The day's orders are exactly the stored orders of that business day. |
| Reports.DeliveryCount | backend/src/routes/reports.js:36 | The delivery count never exceeds the order count. |
| Reports.DailySalesSplit | backend/src/routes/reports.js:31-40 | In consistent tables, the day's sales are its lines' totals plus its delivery total, and delivery orders are at most all orders. |
| Reports.NoDeliveriesNoDeliveryTotal | backend/src/routes/reports.js:35-36 | A day with no delivery orders has a delivery total of 0. |
| Reports.OrderSales | backend/src/routes/reports.js:124-143 | Every export row of an order carries that order's id and total. |
| Reports.SaleRows | backend/src/routes/reports.js:124-143 | Every export row belongs to one of the day's orders and carries its total. |
| Reports.OrderSalesEmpty | backend/src/routes/reports.js:124-143 | An order contributes no export rows exactly when none of its lines' products still exists (the inner join with products). |
| Reports.SaleRowsEmpty | backend/src/routes/reports.js:124-150 | The day has no export rows, and so the export answers 404, exactly when no order of the day contributes a row. |
| Reports.Daily | backend/src/routes/reports.js:18-106 | The report answers 400 exactly for a malformed date. Otherwise it names the date, counts the day's orders and lists at most five top products. |
| Reports.Keys | backend/src/routes/reports.js:57 | Group keys are distinct and are exactly the keys of the rows. |
| Reports.Tallies | backend/src/routes/reports.js:46-57 | One tally per key: the key's summed quantity and summed line totals. |
| Reports.InsertDesc | backend/src/routes/reports.js:58 | Inserting keeps the tallies in descending order and adds exactly one element. |
| Reports.SortDesc | backend/src/routes/reports.js:58 | The sort is descending and a permutation of its input. |
| Reports.TopProducts | backend/src/routes/reports.js:74 | At most five entries. |
| Reports.SortedTalliesCorrect | backend/src/routes/reports.js:45-76 | Every sorted entry is the true tally of a key present in the rows, and every row's group appears. |
| Reports.SortedKeysDistinct | backend/src/routes/reports.js:57 | No group appears twice after sorting. |
| Reports.ProductSummarySound | backend/src/routes/reports.js:45-59 | The summary has one correct tally per (name, masa, small) group present, no other entries, in descending sales order. |
| Reports.TopIsPrefix | backend/src/routes/reports.js:73-74 | The top products are the first min(5, n) entries of the by-quantity ranking. |
| Reports.TopEntries | backend/src/routes/reports.js:63-76 | The top entries are correct per-name tallies, distinct, in descending quantity order. |
| Reports.TopLeftOut | backend/src/routes/reports.js:73-74 | A name left out of the top sold no more than any name kept. |
| Reports.TopAllWhenFew | backend/src/routes/reports.js:74 | With five names or fewer, every name is in the top. |
| ReportExport.Export | backend/src/routes/reports.js:111-150 | The export answers 400 exactly for a malformed date, 404 exactly when the day has no rows, and otherwise the document of the day's rows as written. Its sales line is the per-row sum that the reduce computes, not the per-order figure. |
| ReportExport.ExportCsv | backend/src/routes/reports.js:111-203 | The export handler answers as the export function: on success the document as written, whose sales line is the per-row sum. |
| ReportExport.BuildCsv | backend/src/routes/reports.js:153-195 | The string built by appending equals the document as written, whose sales line is the per-row sum. |
| ReportExport.WriteLines | backend/src/routes/reports.js:166-181 | The row loop writes the header and then one terminated line per row, in order. |
| ReportExport.HeaderFields | backend/src/routes/reports.js:153-166 | The header line splits into exactly its ten field names. |
| ReportExport.LineFields | backend/src/routes/reports.js:168-180 | A data line splits into ten fields in header order: date, order id, quoted name, masa, and quantity; then unit price, line total, "Sí"/"No", delivery cost and order total, each reading back as its amount. |
| ReportExport.DocumentLines | backend/src/routes/reports.js:166-195 | The document's lines are the header, one line per row, then the summary lines. The sent document's sales line carries the per-row sum; the corrected document's carries the per-order figure. |
| ReportExport.NameQuotingIsRfc4180 | backend/src/routes/reports.js:172 | The quoted name equals the quoting of section 2 of RFC 4180 exactly when the name has no double quote. |
| ReportExport.UniqueCounts | backend/src/routes/reports.js:190 | The unique-order count is the number of the day's orders that have rows. |
| ReportExport.PerOrderCounts | backend/src/routes/reports.js:184-188 | The corrected sales figure is the sum of totals of the day's orders that have rows, each counted once. |
| ReportExport.AsWrittenCounts | backend/src/routes/reports.js:184-188 | The sales figure as written adds each order's total once per row of that order. |
| ReportExport.SummaryMatchesTotals | backend/src/routes/reports.js:184-194 | When each of the day's orders has a row, the summary's sales and order count equal the daily report's totals. |
| ReportExport.TotalSalesAsWrittenCountsEachLine | backend/src/routes/reports.js:184-188 | For one consistent 5.00 order of two lines, the figure as written is 10.00. The per-order figure and the daily report's sales are both 5.00. |
| ReportExport.FiguresAgreeWhenOneRowEach | backend/src/routes/reports.js:184-188 | When no two rows share an order id, the figure as written equals the per-order figure. |
| ReportExport.DocumentsAgreeWhenOneRowEach | backend/src/routes/reports.js:153-195 | When no two rows share an order id, the sent document equals the corrected one. |
| ReportExport.SalesLine | backend/src/routes/reports.js:184-195 | For rows without line breaks, the document has header + rows + 5 lines. Its sales line is the label followed by the per-row sum as written, and the corrected document's is the per-order figure. |
| ReportExport.ExportedSalesLineAsWritten | backend/src/routes/reports.js:184-195 | For one 5.00 order of two rows, the sent document's sales line reads 10.00 and the corrected one reads 5.00. |
| ReportExport.ExampleExport | backend/src/routes/reports.js:111-203 | For that order on 2024-05-01, the export answers with the document as written. |
| NewOrder.FindListed | frontend/src/components/NewOrder.js:68 | Finds an entry exactly when the listing has that id, and the entry found has it. |
| NewOrder.PreviewLine | frontend/src/components/NewOrder.js:74-81 | For a quantity that is not negative, the form's formula is the server's pricing rule. |
| NewOrder.ItemSubtotalAsWritten | frontend/src/components/NewOrder.js:67-82 | As written: 0 for an unknown product, otherwise quantity × listed price (the promotion never applies). |
| NewOrder.ItemSubtotal | frontend/src/components/NewOrder.js:67-82 | 0 for an unknown product. Otherwise, for a quantity that is not negative, the server's rule on the listed price and small flag. |
| NewOrder.PreviewTotalAppend | frontend/src/components/NewOrder.js:85-89 | Adding a line adds exactly its corrected subtotal to the corrected previewed total. |
| NewOrder.PreviewTotalAsWrittenAppend | frontend/src/components/NewOrder.js:85-89 | As written, adding a line adds its quantity × listed price (0 if unlisted) to the previewed total. |
| NewOrder.PreviewTotalsAgree | frontend/src/components/NewOrder.js:67-89 | With no promotion product selected, the total as written equals the corrected one. |
| NewOrder.SingleLinePreview | frontend/src/components/NewOrder.js:85-89 | A one-line pickup previews at that line's subtotal, as written and corrected. |
| NewOrder.AsWrittenTotalExample | frontend/src/components/NewOrder.js:85-89 | A pickup of three units of a 0.50 promotion product shows 1.50 as written and 1.00 corrected. |
| NewOrder.AddOutcome | frontend/src/components/NewOrder.js:92-106 | The list grows by one exactly when the entered line has a product and a positive quantity. The added line is the entered one, the line resets to the blank one and the message clears. Otherwise the list and the entered line stay and a message is shown. Every listed line stays ready. |
| NewOrder.RemoveDropsIndex | frontend/src/components/NewOrder.js:109-111 | Removing drops exactly the line at the index and keeps the rest in order. An index out of range changes nothing. |
| NewOrder.CheckOutcome | frontend/src/components/NewOrder.js:117-137 | Submit is stopped exactly for an empty list, or a delivery with an empty or negative cost. What is sent carries the lines in order, the delivery flag, the selected day, and cost 0 for a pickup. |
| NewOrder.ListingPricedAsListed | backend/src/routes/products.js:25-35 | For a catalogue with one price and flag per name, each listed id is priced by the server at the listed price and flag. |
| NewOrder.ListedLinePriced | frontend/src/components/NewOrder.js:67-82 | A ready line of a listed product is priced by the server at its previewed subtotal. |
| NewOrder.SubmittedTotalMatches | frontend/src/components/NewOrder.js:85-89 | Submitting a checked draft of listed products stores an order whose total is the previewed total. |
| NewOrder.SubmittedTotalMatchesPreview | frontend/src/components/NewOrder.js:85-89 | The same, stated for the catalogue's own listing and price lookup. |
| NewOrder.AsWrittenMissesPromotion | frontend/src/components/NewOrder.js:75 | For a listed small product, three units preview at 3 × price, while the server stores 100 cents. |
| NewOrder.AsWrittenPreviewMissesPromotion | frontend/src/components/NewOrder.js:75 | The same, for the catalogue's own listing. |
| NewOrder.AsWrittenPreviewExample | frontend/src/components/NewOrder.js:74-79 | A 0.50 small product bought three times previews at 1.50 as written, and at 1.00 as corrected and as stored. |
| NewOrder.LoadedOrderCheck | frontend/src/components/NewOrder.js:48-64 | A loaded delivery with no positive cost cannot be resubmitted until a cost is typed. Any other loaded order with lines passes the checks. |
| NewOrder.ResubmitKeepsLines | frontend/src/components/NewOrder.js:53-57 | Resubmitting a loaded order while prices are unchanged prices every line exactly as stored. |
| NewOrder.OrderForm.constructor | frontend/src/components/NewOrder.js:17-30 | The form starts with no lines, the blank line (no product, maíz, quantity 1), a pickup, an empty cost and no message. |
| NewOrder.OrderForm.SelectProduct | frontend/src/components/NewOrder.js:200 | Only the entered line's product changes. |
| NewOrder.OrderForm.SelectMasa | frontend/src/components/NewOrder.js:220 | Only the entered line's masa changes. |
| NewOrder.OrderForm.SetQuantity | frontend/src/components/NewOrder.js:237 | Only the entered line's quantity changes. |
| NewOrder.OrderForm.SetDelivery | frontend/src/components/NewOrder.js:329 | Only the delivery flag changes. |
| NewOrder.OrderForm.SetDeliveryCost | frontend/src/components/NewOrder.js:347 | Only the cost field changes. |
| NewOrder.OrderForm.LoadForEdit | frontend/src/components/NewOrder.js:48-64 | The stored lines become the list, and the delivery flag is loaded. The cost field is filled only for a positive stored cost. Every line stays ready when the stored quantities are positive. |
| NewOrder.OrderForm.AddItem | frontend/src/components/NewOrder.js:92-106 | The form moves as the add function says and every listed line stays ready. |
| NewOrder.OrderForm.RemoveItem | frontend/src/components/NewOrder.js:109-111 | Only the list changes, by the removal, and every listed line stays ready. |
| NewOrder.OrderForm.Submit | frontend/src/components/NewOrder.js:114-137 | Returns the check's result. A failure shows its message; a success clears it. Nothing else changes. |

## Left out

- Floating-point arithmetic: `toFixed(2)`, `parseFloat` and JavaScript number addition. Money is integer cents and the bundle price is the constant 100, so no rounding happens in the model.
- Quantities are integers. A fractional quantity, which the JavaScript would accept, is not modelled.
- Values that are present but of the wrong type are not modelled: a string `product_id`, a non-boolean `is_delivery` or `is_open`, a non-object bulk entry. The order routes' request fields, the product patch and the single-date PUT flag are `Option`s, where a missing field, or `items` that is not an array, is `None`. The product create and the bulk entries are not; see the next two lines.
- Catalogue.CreateProduct: takes a name and a price that are present. The route checks neither (backend/src/routes/products.js:49-63): a missing name inserts NULL, and a missing price inserts `parseFloat(undefined)`, which is NaN. Product rows here cannot hold either.
- OpenDays.PutDays: each bulk entry carries a boolean flag. The bulk POST never checks `is_open` (backend/src/routes/openDays.js:151-163), so a missing one upserts NULL, which a `DayRow` cannot hold.
- Catalogue.Names: sorts by code-point order, which is the database's `ORDER BY name` (backend/src/routes/products.js:34) only under the C collation. Other collations order accents and case differently.
- Catalogue.ListingOrdered: the same assumption of the C collation.
- The `pg` pool, client acquisition and release, and concurrent requests. Each transaction is one atomic state change. Issuing BEGIN/COMMIT on the pool in products.js is a concurrency matter and is left out too. PostgreSQL id sequences are not rolled back, and in the model they are not advanced by a failed request either.
- Database errors (constraint violations, type errors), which answer through the error middleware. The schema is not part of this model. In particular, nothing stops two products from sharing a name through a rename; `Catalogue.UpdateKeepsSameTerms` assumes no such rename.
- The GET order listing and order detail (orders.js:26-140), with their `Promise.all` fan-out, and every re-select that only shapes a response (`RETURNING *`, the order read back after COMMIT).
- Clock-dependent defaults: "today" for the order listing, the last seven days of `/api/reports/summary`, and ordering by `created_at`. The summary route is left out.
- `avg_price` of the product summary, an average of floats. The summary keeps the summed quantity and the summed line totals.
- The UTF-8 byte-order mark and the response headers of the CSV download (reports.js:198-203). How PostgreSQL renders a DATE or NUMERIC value inside the CSV is not modelled either: the business day is the text of the requested date, and amounts are written from cents.
- Ordering ties in the product summary and the top five: SQL leaves the order of equal sums unspecified; the model's sort is stable on first appearance, and every contract is stated up to ties.
- LegacyOrders: the handlers take the `unit_price` and `is_small` read as a lookup parameter, `unitPrices`. The model does not say what that read returns, because the product routes never write `unit_price` and the schema is not part of this model. So the handlers match the mounted routes only when `unitPrices` equals the `price` lookup.
- ReportExport.NameQuotingIsRfc4180: the export does not double embedded quotes. The lemma states when the two quotings agree; it does not correct the export.
- The order form's network calls, loading of products, success messages and navigation. `api.js`, which maps the HTTP responses for the form, is not part of this model; the form reads the listing entries as the route returns them.
- Rendering and user-interface components other than the order form's state: the dashboard, the daily report page, the open-days page, the products page, the orders list and the app's navigation.
- Server start-up, middleware and the mapping of database error codes.

## Findings

| source | as written | input that shows it | evidently intended | confidence | as-written member | corrected member |
|---|---|---|---|---|---|---|
| backend/src/routes/reports.js:184-188 | The `Set` of seen order ids is created inside the reduce callback, so it is always empty and every row adds its order's total. | One order of 5.00 with two lines: the summary says 10.00 of sales for 1 order. | Each order's total counted once, as the comment says, so the figure equals the day's sales. | high, not executed | ReportExport.ExportedSalesLineAsWritten | ReportExport.SummaryMatchesTotals |
| frontend/src/components/NewOrder.js:75 | The promotion test reads `is_small` on entries of the product listing. The listing (backend/src/routes/products.js:25-35) returns `has_small_version` and no `is_small`, so the preview never applies 3x1$. | A small product at 0.50 with quantity 3: the form previews 1.50, and the server stores 1.00. | The preview uses the listing's small flag and so matches the stored total. | medium (the client's API wrapper is not part of this model), not executed | NewOrder.AsWrittenPreviewExample | NewOrder.SubmittedTotalMatchesPreview |
