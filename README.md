# Toko Ija Plastik inventory back end — a Dafny model

This project models the core of the back end of a small plastics shop. The back end is an
Express/MySQL service that keeps a stock ledger in base units, sells from a point-of-sale
cart, and restocks through purchase orders (PO) and goods-receipt notes (GRN). It warns
admins on WhatsApp when a product's stock status changes, and it renders receipts, a
cashier report (JSON and CSV) and supplier notices.

The database is one object, `Tables.Database`. Every table is a field: a `map` keyed by
AUTO_INCREMENT id, or an append-only `seq` for movements and item rows. A counter stands
for each table's next id. Outgoing WhatsApp stock warnings are appended to an `outbox`
field. Each controller that runs inside a SQL transaction is a `method`. It computes the
outcome on local copies, commits only on success and leaves the database unchanged on
failure. Its `ensures` ties the new state to a specification function of the old state,
and lemmas prove what the shop relies on about those functions. These properties are:

- the ledger invariant: a product's stock equals its `in` movements minus its `out`
  movements;
- non-negative stock after a sale;
- legal PO status steps;
- the edge-triggered notifier sends at most one round of warnings;
- both phone normalisers are idempotent;
- the CSV encoding round-trips (section 2 of RFC 4180);
- the user and supplier linking rules are kept, with role names matched exactly (see "## Left out").

Modules follow the source files:

| module | source |
|---|---|
| `Sales` | `createSale` in `src/controllers/sales.controller.js` |
| `Purchase` | the PO life cycle in `src/controllers/purchase.controller.js` |
| `Products` | `addProduct` and `updateProduct` in `src/controllers/products.controller.js` |
| `StockStatus` | `computeStatus`, which that file and the stock alert service share |
| `StockAlertService` and `Phone` | `src/services/stockAlert.service.js` |
| `LegacyStockAlerts` | `src/utils/stockAlerts.js` |
| `AlertSupply` | `src/utils/alertSupply.js` |
| `Reports`, `Csv` and `Pagination` | `src/controllers/reports.controller.js` |
| `Receipt` | `src/utils/receipt.js` |
| `Users` | `src/controllers/users.controller.js` |

The other modules hold shared pieces:

- `Common`: `Option`, `Result`, the `Field` type of partial updates, and JavaScript falsiness.
- `Text`: digits, prefixes, `Join`, `Contains`, `Trim`, upper-casing and integer formatting.
- `Ledger`: movement sums and the ledger invariant.
- `Sql`: the WHERE conditions of the list and report queries and their placeholder counts.

Some parts of the service are given to the model as parameters:

- the clock;
- `Math.random` codes, passed as a receipt number or PO code;
- bcrypt, as a `hash` function;
- `toLocaleString`, as a `format` function;
- environment variables, as `Option<string>` values;
- the delivery result of each legacy WhatsApp send, as an oracle `ok`.

A goods receipt records what arrived and nothing more: `receiveGRN` takes only
`product_id` and `qty_pack` per line. There are no per-item supplier decisions, no
difference quantities and no returns, in the code or in the model.

## Model

| member | source | states |
|---|---|---|
| Sales.FirstLineError | src/controllers/sales.controller.js:31-35 | The first failing line's error is reported, and only when some line lacks a product id, has a type other than unit/pack or a quantity ≤ 0 |
| Sales.ValidateItems | src/controllers/sales.controller.js:30-35 | The cart passes iff it is non-empty and every line is valid; an empty cart is `EmptyItems` |
| Sales.ValidateLines | src/controllers/sales.controller.js:30-35 | The validation loop answers exactly `ValidateItems` |
| Sales.PriceLine | src/controllers/sales.controller.js:54-58 | A pack line takes the wholesale pack price, any other line the retail unit price; line total = price × qty |
| Sales.PriceLines | src/controllers/sales.controller.js:47-53 | Pricing succeeds iff every product exists, giving one priced line per cart line in order; otherwise it names the first missing product |
| Sales.PriceCart | src/controllers/sales.controller.js:45-59 | The pricing loop returns `PriceLines` and a subtotal equal to the sum of the line totals |
| Sales.Settle | src/controllers/sales.controller.js:61-71 | The method defaults to cash and is lower-cased and must be cash/qris/card; cash needs cash_received ≥ total and gives change = cash − total ≥ 0; other methods store no cash and change 0 |
| Sales.MethodDefaultsToCash | src/controllers/sales.controller.js:62 | A missing or empty payment method settles as cash |
| Sales.MethodIsCaseInsensitive | src/controllers/sales.controller.js:62-63 | Any two given methods equal after lower-casing settle identically; in particular "QRIS" settles as qris with no cash and no change |
| Sales.SaleMovementsAt | src/controllers/sales.controller.js:100-104 | The i-th sale movement is the `out`/`sale` movement of the i-th line |
| Sales.SaleRowsAt | src/controllers/sales.controller.js:95-99 | The i-th sale_items row records the i-th line |
| Sales.DebitLines | src/controllers/sales.controller.js:85-105 | The debit loop computes exactly `Debit`, the line-by-line stock check and decrement |
| Sales.Debit | src/controllers/sales.controller.js:85-105 | A successful debit keeps the product ids and appends one movement and one sale_items row per line; a failed one is `InsufficientStock` |
| Sales.DebitSucceedsIff | src/controllers/sales.controller.js:88-90 | The debit succeeds iff no line takes its product below zero, counting the earlier lines of the same sale |
| Sales.DebitStock | src/controllers/sales.controller.js:92 | On success each product's stock drops by the total units its lines sold, and nothing else about it changes |
| Sales.DebitMovements | src/controllers/sales.controller.js:100-104 | On success exactly one `out`/`sale` movement per line is appended |
| Sales.DebitRows | src/controllers/sales.controller.js:95-99 | On success exactly one sale_items row per line is appended |
| Sales.DebitBalanced | src/controllers/sales.controller.js:85-105 | The debit keeps stock = Σ in − Σ out |
| Sales.DebitNonNegative | src/controllers/sales.controller.js:88-92 | Every touched product ends with stock ≥ 0, and non-negative stock stays non-negative |
| Sales.DebitTouched | src/controllers/sales.controller.js:93 | The changed-id set is exactly the products the lines name, each once |
| Sales.DebitKeepsForeignKeys | src/controllers/sales.controller.js:100-104 | Movements keep naming product ids already handed out; no product is added or removed |
| Sales.QuoteSpec | src/controllers/sales.controller.js:29-71 | A quote exists exactly when the cart is valid, every product exists and the payment settles against the subtotal; otherwise the error is the validation error, else the first missing product, else the payment error, in that order. A quote has subtotal = Σ line totals |
| Sales.QuoteSale | src/controllers/sales.controller.js:29-71 | The validation, pricing and payment steps answer exactly `QuoteSpec` |
| Sales.CreateSaleSpec | src/controllers/sales.controller.js:26-113 | A quote error is the sale's error; after a quote the sale commits exactly when the debit succeeds and otherwise fails with `InsufficientStock`; a committed sale has the given id and receipt number, total = subtotal of the quote, and the same product ids |
| Sales.CreateSaleValidCart | src/controllers/sales.controller.js:30-53 | A recorded sale had a non-empty cart of valid lines whose products all exist |
| Sales.CreateSaleKeepsLedger | src/controllers/sales.controller.js:85-107 | A sale changes only stock, keeps the ledger invariant and non-negative stock, and leaves every touched product at ≥ 0 |
| Sales.CreateSaleRecords | src/controllers/sales.controller.js:86-104 | Line i appends one `out`/`sale` movement of qty × pack_size (pack) or qty (unit) units and one sale_items row; earlier rows are kept |
| Sales.CreateSaleTouched | src/controllers/sales.controller.js:93 | The notify set holds each product of the cart exactly once |
| Sales.OversellRejected | src/controllers/sales.controller.js:88-90 | A cart with a line that would drive stock below zero is refused as a whole |
| Sales.CreateSale | src/controllers/sales.controller.js:26-124 | Commits the sale, its items, the debited stock and the movements as `CreateSaleSpec` computes them; on any error the database is unchanged |
| Sales.CommitSale | src/controllers/sales.controller.js:77-107 | Writing a sale keeps the database valid and sets exactly the given tables |
| Sales.CreateSaleAndNotify | src/controllers/sales.controller.js:107-117 | After commit the notifier runs once per distinct touched product; nothing is sent on failure |
| Purchase.ItemRows | src/controllers/purchase.controller.js:20-26 | One PO item row per input item |
| Purchase.ItemRowsAt | src/controllers/purchase.controller.js:20-26 | Row i copies item i's product, pack quantity and pack price under the new PO id |
| Purchase.NewPOHasItsRows | src/controllers/purchase.controller.js:20-26 | Selecting the new PO's rows gives exactly its items, in order |
| Purchase.CreatePO | src/controllers/purchase.controller.js:9-30 | A new PO is `draft` with `note` or null and exactly its item rows; a non-array item list changes nothing |
| Purchase.BuildItemRows | src/controllers/purchase.controller.js:20-26 | The insert loop builds exactly `ItemRows` |
| Purchase.CommitPO | src/controllers/purchase.controller.js:18-28 | Writing a PO keeps the database valid |
| Purchase.SendSpec | src/controllers/purchase.controller.js:35 | `sendPO` sets `sent` from any status and touches no other PO |
| Purchase.SendPO | src/controllers/purchase.controller.js:32-38 | The update writes `SendSpec` and reports one affected row iff the PO exists |
| Purchase.SendReopensReceivedPO | src/controllers/purchase.controller.js:35 | Because `sendPO` has no status check, a received PO becomes receivable again |
| Purchase.ValidateGrn | src/controllers/purchase.controller.js:45-53 | A GRN passes iff the PO id is numeric, the item list is non-empty and every line has a product id and qty_pack > 0 |
| Purchase.ValidateGrnLines | src/controllers/purchase.controller.js:45-53 | The validation loop answers exactly `ValidateGrn` |
| Purchase.EffectivePackSize | src/controllers/purchase.controller.js:91 | A zero pack size counts as 1 |
| Purchase.CreditLines | src/controllers/purchase.controller.js:80-114 | The receive loop computes exactly `Credit` |
| Purchase.CreditSucceedsIff | src/controllers/purchase.controller.js:89 | Crediting fails iff some line names a missing product |
| Purchase.Credit | src/controllers/purchase.controller.js:80-114 | A successful receipt keeps the product ids and appends one movement and one GRN item per line; a failure names a product that does not exist |
| Purchase.CreditStock | src/controllers/purchase.controller.js:102-106 | Each product's stock rises by qty_pack × pack size summed over its lines, and nothing else about it changes |
| Purchase.TotalReceivedStockOnly | src/controllers/purchase.controller.js:91-92 | Received units depend on pack sizes only, not on stock |
| Purchase.CreditBalanced | src/controllers/purchase.controller.js:102-113 | Receiving keeps stock = Σ in − Σ out |
| Purchase.CreditNeverLowersStock | src/controllers/purchase.controller.js:102-106 | With positive pack counts and non-negative pack sizes, no stock falls |
| Purchase.GrnMovementsAt | src/controllers/purchase.controller.js:109-113 | Movement i is the `in`/`purchase` movement of line i's units |
| Purchase.GrnRowsAt | src/controllers/purchase.controller.js:95-99 | GRN item i records line i |
| Purchase.CreditMovements | src/controllers/purchase.controller.js:109-113 | Exactly one `in`/`purchase` movement per line is appended |
| Purchase.GrnMovementsStockOnly | src/controllers/purchase.controller.js:91-92 | The movements depend on pack sizes only |
| Purchase.CreditRows | src/controllers/purchase.controller.js:95-99 | Exactly one GRN item row per line is appended |
| Purchase.CreditTouched | src/controllers/purchase.controller.js:114 | The changed-id set is exactly the products the lines name, each once |
| Purchase.ReceivedIsFinal | src/controllers/purchase.controller.js:66-69 | A received PO cannot be received again |
| Purchase.ReceiveSpec | src/controllers/purchase.controller.js:41-128 | In the source's order: a validation error, a missing PO (not found), a PO in no receivable status, then a missing product; the receipt commits exactly when none of these occurs, under the given GRN id and against that PO, with the same product and PO ids |
| Purchase.StepTargets | src/controllers/purchase.controller.js:35-69 | No handler moves a PO back to draft; a received PO can only be re-sent; a confirmed PO can be re-sent or received; draft and sent can move to any later status |
| Purchase.ReceiveStampsReceived | src/controllers/purchase.controller.js:62-69 | A receipt needs a draft/sent/confirmed PO, stamps it `received` by a legal step, and any later receipt of it fails |
| Purchase.ReceiveKeepsLedger | src/controllers/purchase.controller.js:80-120 | A receipt credits each product by its received units, appends the GRN items and movements, keeps the ledger invariant and never lowers stock |
| Purchase.CreditKeepsForeignKeys | src/controllers/purchase.controller.js:95-113 | Movements keep naming product ids already handed out, no product is added or removed, and every GRN item row refers to this GRN or an earlier one |
| Purchase.ReceiveGRN | src/controllers/purchase.controller.js:41-144 | Commits the GRN, its items, stock, movements and the `received` stamp as `ReceiveSpec` computes them; on any error the database is unchanged |
| Purchase.CommitGrn | src/controllers/purchase.controller.js:72-120 | Writing a GRN keeps the database valid and stamps only that PO |
| Purchase.ReceiveGRNAndNotify | src/controllers/purchase.controller.js:117-135 | After commit the notifier runs once per distinct received product; nothing is sent on failure |
| Purchase.LinkedSupplier | src/controllers/purchase.controller.js:203-204 | A caller's supplier is their non-zero `supplier_id` |
| Purchase.ConfirmSpec | src/controllers/purchase.controller.js:198-222 | In the source's order: an unlinked caller, a missing PO, a PO of another supplier (forbidden) and a status other than draft/sent are refused; otherwise only that PO moves to `confirmed` |
| Purchase.ConfirmOnce | src/controllers/purchase.controller.js:210-215 | A confirmed PO cannot be confirmed again but can still be received |
| Purchase.SupplierConfirmPO | src/controllers/purchase.controller.js:198-222 | The handler writes exactly `ConfirmSpec`'s outcome, or nothing with its error |
| Purchase.LineViews | src/controllers/purchase.controller.js:185-192 | The detail lists exactly the PO's item rows whose product exists |
| Purchase.LineViewsOne | src/controllers/purchase.controller.js:185-192 | An item row gives one view when it belongs to the PO and its product exists, none otherwise |
| Purchase.LineViewsAppend | src/controllers/purchase.controller.js:185-192 | Views are taken row by row in order: the views of a concatenation are the concatenated views, so duplicates and order are kept |
| Purchase.GetPOById | src/controllers/purchase.controller.js:166-196 | A missing PO or supplier is not found; a supplier caller sees only a PO of their own supplier |
| Purchase.SupplierSeesOnlyOwnPOs | src/controllers/purchase.controller.js:178-183 | A supplier can read a PO iff they are linked to its supplier; an admin always can |
| Purchase.ListAllPOsQuery | src/controllers/purchase.controller.js:225-256 | Page and limit are clamped; the search condition (two LIKE arguments) comes before the status condition (one argument), each present iff its trimmed value is non-empty, so every placeholder gets its own argument |
| Pagination.ClampPage | src/controllers/reports.controller.js:24-26 | A missing page is 1, a page below 1 becomes 1, any other page is kept; a missing limit is 20, a limit is clamped into 1..100; offset = (page − 1) × limit |
| Pagination.PagesTile | src/controllers/reports.controller.js:26 | Consecutive pages are adjacent and do not overlap |
| StockStatus.ComputeStatus | src/controllers/products.controller.js:8-15 | LOW iff min is set and stock ≤ min; otherwise OVER iff max is set and stock ≥ max; otherwise NORMAL |
| StockStatus.Label | src/services/stockAlert.service.js:78 | LOW is "STOK MENIPIS" and OVER is "STOK MELEBIHI BATAS" |
| StockStatus.LowWinsWhenBothHold | src/controllers/products.controller.js:11-13 | When both thresholds are crossed the status is LOW |
| StockStatus.LowStaysLowWhenStockFalls | src/services/stockAlert.service.js:26-33 | LOW is kept as stock falls |
| StockStatus.OverStaysOverWhenStockRises | src/services/stockAlert.service.js:26-33 | OVER is kept as stock rises |
| Products.AddProductError | src/controllers/products.controller.js:31-41 | Rejects a missing name or unit name, pack size ≤ 0, missing or negative prices and an existing non-empty SKU, and nothing else |
| Products.InitialStock | src/controllers/products.controller.js:43-44 | Initial stock is the given value when positive, else 0 |
| Products.NewRow | src/controllers/products.controller.js:43-71 | The stored row has the initial stock and the status `computeStatus` gives for it |
| Products.InitMovements | src/controllers/products.controller.js:74-81 | One `in`/`init` movement of the initial stock is written iff it is > 0 |
| Products.AddProductSpec | src/controllers/products.controller.js:17-94 | Adding fails exactly on the validation errors; on success it stores `NewRow` (stock and `computeStatus` status) under the new id and appends `InitMovements` |
| Products.AddProductKeepsLedger | src/controllers/products.controller.js:56-81 | Adding a product keeps the ledger invariant and non-negative stock |
| Products.AddProduct | src/controllers/products.controller.js:17-94 | Inserts the product and its init movement as `AddProductSpec` computes them; on error nothing changes |
| Products.Patched | src/controllers/products.controller.js:132-143 | Exactly the supplied fields change; with none supplied the row is unchanged |
| Products.UpdateSpec | src/controllers/products.controller.js:111-151 | A zero id and an unknown id are rejected, no fields gives "no changes", and only the addressed row changes |
| Products.StockEditUnbalances | src/controllers/products.controller.js:141 | After an update the ledger balances iff `stock_units` was left as it was: a direct stock edit breaks it |
| Products.UpdateWithoutStockKeepsLedger | src/controllers/products.controller.js:132-143 | An update that does not supply `stock_units` keeps the ledger invariant |
| Products.UpdateProduct | src/controllers/products.controller.js:111-164 | Writes `UpdateSpec`'s row, and runs the notifier iff stock or a threshold was supplied |
| Phone.NormalizePhone | src/services/stockAlert.service.js:5-11 | None iff no digits remain; otherwise all digits starting with "62": digits starting with "62" kept, a leading "0" replaced by "62", any other number prefixed with "62" |
| Phone.NormalizePhoneIdempotent | src/services/stockAlert.service.js:8-10 | Normalising a normalised phone changes nothing |
| Phone.NormalizePhoneTo62 | src/utils/alertSupply.js:8-15 | None iff the input is missing or has no digits; otherwise all digits, never starting with "0": digits starting with "62" kept, a leading "0" replaced by "62", any other number returned as-is |
| Phone.NormalizePhoneTo62Idempotent | src/utils/alertSupply.js:12-14 | Normalising a normalised phone changes nothing |
| Phone.NormalisersAgreeExactlyOnPrefixed | src/utils/alertSupply.js:12-14 | The two normalisers agree iff the digits start with "62" or "0" |
| StockAlertService.AdminRecipients | src/services/stockAlert.service.js:13-23 | Recipients are exactly the active admins with a non-empty phone that normalises; each phone is all digits starting with "62" |
| StockAlertService.AdminRecipientsOne | src/services/stockAlert.service.js:20-22 | A reachable admin row gives exactly its recipient, any other row none |
| StockAlertService.AdminRecipientsAppend | src/services/stockAlert.service.js:20-22 | Rows are mapped one at a time in order: the recipients of a concatenation are the concatenated recipients, one per qualifying row |
| StockAlertService.Warnings | src/services/stockAlert.service.js:82-86 | One warning per recipient, in order |
| StockAlertService.Notify | src/services/stockAlert.service.js:47-87 | Writes the new status only on a change (a missing stored status counts as NORMAL); warns only on a change to LOW/OVER, with that label; no other product changes |
| StockAlertService.NotifyIdempotent | src/services/stockAlert.service.js:61-73 | A second call right after the first does nothing |
| StockAlertService.NotifyTwiceSendsOneRound | src/services/stockAlert.service.js:61-86 | Two calls in a row send at most one round |
| StockAlertService.NoAlertWithoutTransition | src/services/stockAlert.service.js:61-65 | A product edit that leaves the status as it was sends nothing |
| StockAlertService.NotifyAllOnlyStatus | src/controllers/sales.controller.js:115-117 | Notifying a set of products changes only their stored status |
| StockAlertService.NotifyAll | src/controllers/sales.controller.js:115-117 | Notifying a list of products keeps the product ids and sends at most one round of warnings per listed product |
| StockAlertService.SameExceptStatusKeepsLedger | src/services/stockAlert.service.js:68-73 | A status-only write keeps the ledger invariant and non-negative stock |
| StockAlertService.NotifyStockStatus | src/services/stockAlert.service.js:47-87 | The handler writes exactly `Notify`'s status and appends its warnings to the outbox |
| StockAlertService.NotifyEach | src/controllers/sales.controller.js:115-117 | The loop over changed ids writes exactly `NotifyAll` |
| LegacyStockAlerts.AdminTargets | src/utils/stockAlerts.js:8-12 | Exactly the targets with a non-empty phone |
| LegacyStockAlerts.AdminTargetsOne | src/utils/stockAlerts.js:11 | A row with a phone is kept as itself, a row without is dropped |
| LegacyStockAlerts.AdminTargetsAppend | src/utils/stockAlerts.js:11 | Rows are filtered one at a time in order: one target per phone-bearing row, duplicates kept |
| LegacyStockAlerts.Kondisi | src/utils/stockAlerts.js:22-27 | "STOK MENIPIS" iff stock < (min ?? 0); else "STOK MELEBIHI BATAS" iff stock > (max ?? 999999999); else none |
| LegacyStockAlerts.Delivered | src/utils/stockAlerts.js:31-35 | Never more than the number of sends |
| LegacyStockAlerts.LegacyWarnings | src/utils/stockAlerts.js:32-33 | One warning per target, in order |
| LegacyStockAlerts.LegacyNotify | src/utils/stockAlerts.js:18-37 | No targets or no violation sends nothing; otherwise one send per target, and sent counts the sends without an error, 0 ≤ sent ≤ targets |
| LegacyStockAlerts.AllDeliveredCountsAll | src/utils/stockAlerts.js:34 | When every send succeeds, sent equals the number of targets |
| LegacyStockAlerts.KondisiAgreesOffThresholds | src/utils/stockAlerts.js:22-27 | Away from the thresholds the legacy classifier agrees with `computeStatus` |
| LegacyStockAlerts.KondisiDisagreesOnThresholds | src/utils/stockAlerts.js:22-27 | On a threshold the service says LOW/OVER while the legacy classifier says nothing |
| LegacyStockAlerts.MissingMinDefaultsToZero | src/utils/stockAlerts.js:23 | With no minimum, negative stock is "STOK MENIPIS" here but not LOW in `computeStatus` |
| AlertSupply.ItemLines | src/utils/alertSupply.js:31-33 | At most the first 8 items, in order, one line each |
| AlertSupply.MoreSuffix | src/utils/alertSupply.js:34 | A suffix naming n − 8 further items appears iff n > 8 |
| AlertSupply.NoteText | src/utils/alertSupply.js:43 | A missing or empty note renders as "-" |
| AlertSupply.Message | src/utils/alertSupply.js:36-46 | The message opens with the greeting that names the PO code, ends with the note (or "-") and the request to confirm, and between them holds exactly the joined item lines and the "more" suffix |
| AlertSupply.MessageListsItems | src/utils/alertSupply.js:31-33 | Each of the first 8 items has its line in the message |
| AlertSupply.MessageCountsRest | src/utils/alertSupply.js:34 | Past 8 items the message names how many were left out |
| AlertSupply.PONotice | src/utils/alertSupply.js:25-55 | A missing token, then a phone that does not normalise, stop it before any message; otherwise target = phone + "\|" + supplier name |
| AlertSupply.MessageSeesFirstEight | src/utils/alertSupply.js:31-34 | Item lists that agree on their first 8 items and their length give the same message |
| AlertSupply.TargetIsNormalised | src/utils/alertSupply.js:51 | The target is an all-digit number not starting with "0", a bar, then the supplier name |
| Csv.Escape | src/controllers/reports.controller.js:126 | Text without quotes is unchanged |
| Csv.Quote | src/controllers/reports.controller.js:126 | Every field is wrapped in double quotes |
| Csv.QuoteAll | src/controllers/reports.controller.js:117-126 | Each field quoted, in order |
| Csv.UnquoteEscape | src/controllers/reports.controller.js:126 | Un-doubling the inner quotes of an escaped field recovers it |
| Csv.RecordRoundTrip | src/controllers/reports.controller.js:117-126 | Reading an encoded record gives back its fields, whatever they contain |
| Csv.RecordInjective | src/controllers/reports.controller.js:117-126 | Different field lists never encode to the same record |
| Reports.CashierOf | src/controllers/reports.controller.js:23 | Only a given, non-zero cashier id filters |
| Reports.BuildFilter | src/controllers/reports.controller.js:28-33 | A missing or empty date is an error; the range arguments are `df 00:00:00` and `dt 23:59:59`; the cashier argument is added iff the id is non-zero |
| Reports.CashierReportQuery | src/controllers/reports.controller.js:19-52 | Same filter, clamped page, and LIMIT and OFFSET as the last two arguments |
| Reports.LineUnitsSold | src/controllers/reports.controller.js:41-42 | qty × pack_size for a pack line, qty for a unit line; a pack line of a deleted product adds nothing |
| Reports.ItemCount | src/controllers/reports.controller.js:40 | Never more than the rows |
| Reports.UnitsSold | src/controllers/reports.controller.js:41-42 | Item rows of other sales add nothing: a sale with no rows of its own sold 0 units |
| Reports.UnitsSoldMatchesLedger | src/controllers/reports.controller.js:40-46 | For a recorded sale, item_count is its line count and units_sold equals the units its movements took from stock |
| Reports.OtherSalesIgnored | src/controllers/reports.controller.js:45-48 | Rows of other sales change neither count |
| Reports.RowOf | src/controllers/reports.controller.js:95-107 | A sale is reported iff its cashier exists, with that name, its item count and units sold |
| Reports.RowFields | src/controllers/reports.controller.js:117-126 | Eight fields per row, in header order |
| Reports.CashierCsv | src/controllers/reports.controller.js:114-128 | The header line, then one record per row, each reading back as the row's 8 fields |
| Receipt.CashBlock | src/utils/receipt.js:6-11 | The Tunai/Kembalian block is non-empty iff the method is exactly "cash" |
| Receipt.TypeLabel | src/utils/receipt.js:15 | "(pack)" iff the item is a pack, else "(unit)" |
| Receipt.ItemRow | src/utils/receipt.js:16-24 | Every item gives a non-empty row |
| Receipt.ItemRows | src/utils/receipt.js:14-25 | One row per item, in order |
| Receipt.TableBody | src/utils/receipt.js:70 | No items gives the "Tidak ada item" row; otherwise the joined item rows |
| Receipt.CashierName | src/utils/receipt.js:62 | A missing or empty cashier name shows as "-" |
| Receipt.Pieces | src/utils/receipt.js:27-88 | The page is the template's 13 pieces |
| Receipt.SaleToHtml | src/utils/receipt.js:1-88 | The page is the 13 pieces of `Receipt.Pieces` concatenated in order; what it shows is stated by the `...Shown`, `ReceiptListsItems` and cash lemmas |
| Receipt.ReceiptNumberShown | src/utils/receipt.js:32-60 | The page shows receipt_no both in the title and in the header's `Receipt:` line |
| Receipt.CashierShown | src/utils/receipt.js:62 | The header shows the cashier line: the cashier's name, or `-` when it is missing or empty |
| Receipt.MethodShown | src/utils/receipt.js:63 | The header shows the payment method upper-cased, empty when there is none |
| Receipt.ReceiptListsItems | src/utils/receipt.js:14-25 | Every item's row and name line appear on the page |
| Receipt.EmptyReceiptShowsFallback | src/utils/receipt.js:70 | With no items the page shows the fallback row |
| Receipt.CashBlockRows | src/utils/receipt.js:8-9 | The cash block holds the Tunai and the Kembalian rows |
| Receipt.CashReceiptShowsChange | src/utils/receipt.js:6-11 | A cash receipt shows cash received and change |
| Receipt.NonCashReceiptIgnoresCash | src/utils/receipt.js:6-11 | A non-cash receipt does not depend on cash received or change |
| Users.DefaultPassword | src/controllers/users.controller.js:5 | The environment's default password, else "123456789"; never empty |
| Users.PasswordOr | src/controllers/users.controller.js:82 | The given password, else the default |
| Users.CreateUserError | src/controllers/users.controller.js:48-79 | Missing name, email or role, a taken email, an unknown role, and a supplier with neither a new supplier nor an existing `supplier_id`, checked in that order |
| Users.FirstCreateUserError | src/controllers/users.controller.js:48-79 | The sequence of early returns answers exactly `CreateUserError` |
| Users.SupplierRow | src/controllers/users.controller.js:63-70 | The new supplier stores its name and null for each missing detail |
| Users.CreateUserSpec | src/controllers/users.controller.js:44-96 | Creation fails exactly on `CreateUserError` |
| Users.CreateUserRecords | src/controllers/users.controller.js:61-88 | The new user is active and gets the next id, the hashed password and a supplier link; a supplier links to a new or an existing supplier, any other role links to none |
| Users.CreateUserKeepsInvariants | src/controllers/users.controller.js:54-80 | Creating a user keeps emails unique and every user's role and supplier link in agreement |
| Users.CreateUser | src/controllers/users.controller.js:44-96 | Writes `CreateUserSpec`'s users and suppliers; on error nothing changes |
| Users.UpdateUserError | src/controllers/users.controller.js:108-131 | An unknown role; a supplier role without a supplier id; a supplier id without a role change for a non-supplier; a missing supplier |
| Users.PatchUser | src/controllers/users.controller.js:105-131 | Supplied fields change; a non-supplier role clears the supplier link |
| Users.UpdateUserSpec | src/controllers/users.controller.js:99-139 | No fields gives "no changes"; otherwise only the addressed user changes, and one row is affected iff they exist |
| Users.UpdateUserKeepsInvariants | src/controllers/users.controller.js:108-131 | An update keeps emails unique and roles and supplier links in agreement |
| Users.BuildAssignments | src/controllers/users.controller.js:105-133 | The `fields` list is empty iff nothing was supplied, and applying it gives `PatchUser` |
| Users.AssignAllPatches | src/controllers/users.controller.js:105-131 | The name, phone and role/link assignments together patch the user |
| Users.UpdateUser | src/controllers/users.controller.js:99-139 | Writes `UpdateUserSpec`'s users; on error nothing changes |
| Users.SoftDeleted | src/controllers/users.controller.js:144 | Only `is_active` of that user changes; nobody is removed |
| Users.SoftDeleteUser | src/controllers/users.controller.js:141-149 | Writes `SoftDeleted` and reports one affected row iff the user exists |
| Users.SoftDeleteKeepsInvariants | src/controllers/users.controller.js:144 | Soft deletion keeps emails unique and links in agreement |
| Users.ResetUserPassword | src/controllers/users.controller.js:151-161 | Only that user's hash changes, to the hash of the new or the default password |
| Users.ViewOf | src/controllers/users.controller.js:29-34 | A listed row copies the user and names the supplier iff it exists |
| Users.Selection | src/controllers/users.controller.js:17-26 | Only active users matching the search and the role, in descending id order |
| Users.SelectionComplete | src/controllers/users.controller.js:17-26 | Every matching user is selected |
| Users.ListUsersSpec | src/controllers/users.controller.js:13-42 | At most 200 rows, all active, matching the trimmed search and role, newest first |
| Users.ListUsersNewest | src/controllers/users.controller.js:19-37 | A matching user is listed when fewer than 200 rows came back or it is newer than the last row: the rows are the 200 newest matches |
| Users.ListUsersComplete | src/controllers/users.controller.js:28-37 | Below the cap every active matching user is listed |
| Users.SoftDeletedNotListed | src/controllers/users.controller.js:17 | A soft-deleted user is never listed but is still stored |
| Users.ListUsers | src/controllers/users.controller.js:13-42 | The scan returns exactly `ListUsersSpec` |

## Left out

- SQL text and the MySQL engine: tables are maps and sequences, and each transaction computes on copies and commits on success.
- Row locks (`FOR UPDATE`) and concurrent requests: the model is sequential.
- MySQL collation: email, role, SKU (`WHERE sku=?` in `addProduct`) and `LIKE` comparisons are exact and case-sensitive here, and `%`/`_` inside a search text are not treated as wildcards.
- Users.CreateUserKeepsInvariants: holds only because the model matches role names exactly. The source looks a role up with `WHERE name=?`, which MySQL's default collation matches case-insensitively, and then branches on `role === 'supplier'`, which is case-sensitive. So a role given as "Supplier" passes the lookup, skips the supplier branch and stores a supplier-role user with no `supplier_id`. The model rejects that role as unknown instead.
- Users.UpdateUserKeepsInvariants: holds only under exact role matching, for the same reason: in the source, an update to role "Supplier" sets the supplier role's id but takes the non-supplier branch and sets `supplier_id` to NULL, leaving a supplier-role user unlinked.
- `toLowerCase`/`toUpperCase` are modelled on the ASCII letters only; other letters are left as they are.
- `ORDER BY created_at DESC` is modelled as descending id order, which matches insertion order; AUTO_INCREMENT gaps are not modelled.
- Queries with no `ORDER BY` return rows in an order MySQL does not promise; the model fixes one: `getAdminRecipients` (src/services/stockAlert.service.js:14-19) in ascending user id, the items of `getPOById` (src/controllers/purchase.controller.js:185-192) in `po_items` insertion order, and the `vw_admin_wa_targets` view (src/utils/stockAlerts.js:9) in the order its rows are given.
- The WhatsApp HTTP posts: stock warnings are appended to `outbox`, and each legacy send's outcome is the oracle `ok`. `sendPONotification` is modelled up to the message and target it would post.
- The stock alert service's `Promise.allSettled` over sends: every warning is recorded as sent, whether or not delivery succeeds.
- bcrypt and JWT: the password hash is an opaque `hash` function, and the caller's id and role are parameters.
- The clock, `Math.random` receipt numbers and PO codes, and `toLocaleString`: parameters (`receiptNo`, `code`, `dateText`, `format`).
- `process.env` values (gateway token, store name, default password): `Option<string>` parameters.
- The receipt's stylesheet is the opaque `style` parameter; `Receipt.Pieces` fixes only the markup around it.
- JavaScript `Number()` coercion, `NaN` and floating point: quantities, pack sizes and money are integers, and a non-numeric value is `None`.
- `listMyPOs`, `listCashiers`, `getSale`/`getSaleReceipt`, `listProducts`, `getProduct` and `deleteProduct` are not modelled. They are plain reads, except `deleteProduct`, which the model replaces by the rule that products are never deleted.
- The suppliers, dashboard and auth controllers, routing, middleware, uploads and the seed script are not part of this model.
- The summary and `total_trx` queries of `cashierReport`: only its data query's arguments and rows are modelled.
- `new Date(created_at).toISOString()` in the CSV: the timestamp is given as text.
- Reports.RowOf: the rows' `ORDER BY created_at DESC` and LIMIT/OFFSET window are not applied to a list of rows; only the arguments that select them are.
- Purchase.ListAllPOsQuery: models the arguments and page of `listAllPOs`, not the rows the query returns.
