# Inventory and point-of-sale core, in Dafny

A model of the core of a small shop application: its product inventory and its sale
transactions. The model covers the domain objects of `src/inventory/models.py` and the
persistence store and the two services of `src/inventory/services.py`.

- **Models** (`models.dfy`) covers products and sales.
  - A product can be refilled, with negative amounts refused.
  - A product can be updated from keyword arguments. The update logs a price-history entry
    when a supplied price really changes.
  - A sale line (`SaleItem`) has a total. A `Sale` is an ordered list of lines.
- **Repositories** (`repositories.dfy`) is the SQLite store, replaced by maps and sequences.
  - Products are kept in a map keyed by barcode, and `save_product` is an upsert.
  - Price history is one append-only sequence per barcode, read back newest first.
  - Sales are kept in a list, under an id that only ever increases.
  - The date-range sales summary has one row per line.
- **Inventory** (`inventory.dfy`) is the `InventoryService` class.
  - `add_product`, `refill_product` and `edit_product` each write through to the store.
  - Each method is proved against a pure transition on the store (`Added`, `Refilled`,
    `Edited`), and the lemmas are about those transitions.
- **SaleTransitions** (`sale_transitions.dfy`) holds the sale service's effect on the store
  and on the open sale, as pure transitions.
  - Its lemmas say when removing a line or cancelling a sale really gives stock back.
  - It holds the concrete cases where the code as written does not give stock back.
- **Sales** (`sales.dfy`) is the `SaleService` class. It is a two-state machine: no sale
  open, or one sale open. Its methods are proved against the `SaleTransitions` functions.

The store is the only source of truth. Every read builds a fresh product object from the
stored row, so a sale line holds a value: the product's row as it was right after the line
reserved its stock. Writing a product back stores the whole row, so whatever the row held
before is lost. Prices are exact `real`s. Timestamps are integers passed in by the caller.

The model follows the code as written, including where callers or tests expect otherwise:

- `add_product` checks for a duplicate barcode in the store, not in the in-memory list.
- The in-memory list behind `get_inventory_table` is filled once and afterwards grows only
  through `add_product`. Refills, edits and sales leave it stale.
  - `InventoryService.RefillProduct` and `EditProduct` state that no listed product object changes.
- Products are copies, not shared instances. The store's row is what counts.
- `start_sale` accepts an empty client id.
- `start_sale` replaces an open sale without giving its reserved stock back.
  - `StartSale` may modify only the service itself.
- `add_item` accepts a zero or negative quantity. A negative one raises the stored stock.
- `remove_item` with a negative index follows Python list indexing (see Findings).

## Model

| member | source | states |
|---|---|---|
| Models.Product.constructor | src/inventory/services.py:65-69 | The object's fields are exactly the stored row, with the given history attached |
| Models.Product.Refill | src/inventory/models.py:25-29 | A negative amount fails with InvalidAmount and leaves every field unchanged. Otherwise the quantity rises by exactly `amount`, and nothing else changes |
| Models.Product.Update | src/inventory/models.py:31-47 | The fields become `Updated(old fields, kwargs)`. History gains exactly one entry, holding the new prices, if and only if a supplied price differs from the old one; otherwise history is unchanged |
| Models.UpdateSetsOnlySuppliedFields | src/inventory/models.py:36-38 | The barcode is kept, and every attribute the arguments do not mention keeps its old value |
| Models.SuppliedIsLastMention | src/inventory/models.py:36-38 | A mentioned attribute takes the value of its last mention |
| Models.SuppliedRetailPriceSet | src/inventory/models.py:36-40 | A supplied retail price is the one stored afterwards, and a different one counts as a price change |
| Models.UnknownKeysIgnored | src/inventory/models.py:36-40 | Keys that name no attribute change no field and log no history |
| Models.UpdateIdempotent | src/inventory/models.py:36-41 | Updating again with the same arguments changes nothing and sees no price change |
| Models.SumTotalsNonNegative | src/inventory/models.py:76-78 | With non-negative quantities and prices, the sum of line totals is non-negative |
| Models.SumTotalsConcat | src/inventory/models.py:76-78 | The sum of line totals distributes over concatenation |
| Models.SumTotalsRemove | src/inventory/models.py:71-78 | Deleting line i lowers the sum by exactly that line's total |
| Models.SaleItem.Total | src/inventory/models.py:57-59 | A line's total is zero when it has no units or a zero price, and never negative when neither is |
| Models.Sale.constructor | src/inventory/models.py:61-65 | A new sale has the given client and no lines |
| Models.Sale.AddItem | src/inventory/models.py:67-69 | The line is appended at the end, and earlier lines are unchanged |
| Models.Sale.RemoveItem | src/inventory/models.py:71-74 | For 0 <= i < n, exactly line i is deleted and later lines shift down; any other index changes nothing |
| Models.Sale.Total | src/inventory/models.py:76-78 | The total is the sum of the line totals, and 0 for an empty sale |
| Models.Sale.Clear | src/inventory/models.py:80-82 | Afterwards the sale has no lines |
| Repositories.InventoryRepository.constructor | src/inventory/services.py:8-30 | The store holds the given rows, keyed by barcode |
| Repositories.InventoryRepository.SaveProduct | src/inventory/services.py:32-37 | Upsert: the row under the product's barcode becomes the product; every other row and all history are unchanged |
| Repositories.InventoryRepository.SavePriceHistory | src/inventory/services.py:39-44 | The entry is appended to its barcode's history; other histories and all products are unchanged |
| Repositories.InventoryRepository.PriceHistory | src/inventory/services.py:87-91 | Exactly the entries stored for that barcode, the newest first, each naming that barcode |
| Repositories.NewestFirst | src/inventory/services.py:87-91 | The history is read back as the stored rows in reverse order |
| Repositories.NewestFirstDescending | src/inventory/services.py:89 | Rows inserted with a clock that never runs backwards come back in descending timestamp order |
| Repositories.InventoryRepository.GetProductByBarcode | src/inventory/services.py:60-71 | Null if and only if no row has that barcode. Otherwise a fresh object equal to the stored row, with that barcode's history newest first |
| Repositories.InventoryRepository.ProductsWhere | src/inventory/services.py:46-58 | Fresh copies of exactly the rows the filter accepts, each barcode once, each with its history |
| Repositories.InventoryRepository.GetAllProducts | src/inventory/services.py:46-58 | Fresh copies of every stored row, each barcode exactly once, each with its history |
| Repositories.InventoryRepository.GetProductsByName | src/inventory/services.py:73-85 | Fresh copies of exactly the rows whose name contains the fragment, each barcode once |
| Repositories.LinesOf | src/inventory/services.py:120-122 | One persisted line per sale line, in order, carrying its barcode, quantity and unit price |
| Repositories.Rows | src/inventory/services.py:136-145 | One summary row per line of the sale, in order |
| Repositories.SummaryInRange | src/inventory/services.py:126-146 | Every row's sale timestamp is within [start, end], and every row's total is quantity times unit price |
| Repositories.SummaryAppend | src/inventory/services.py:126-146 | The summary after one more saved sale is the earlier summary followed by that sale's rows when its timestamp is in [start, end], and nothing more otherwise |
| Repositories.SummaryAscending | src/inventory/services.py:131-132 | With a clock that never runs backwards, the summary is in ascending timestamp order |
| Repositories.SummaryBoundedBy | src/inventory/services.py:131-132 | The summary of sales no later than t has no row later than t |
| Repositories.RowsTotalIsSaleTotal | src/inventory/services.py:116-146 | A saved sale's summary rows add up to the sale's total |
| Repositories.SavedSaleKeepsRows | src/inventory/services.py:116-146 | Saving a sale keeps every earlier summary row as a prefix, and leaves the summary unchanged when the sale is outside [start, end] |
| Repositories.SavedSaleTotal | src/inventory/services.py:116-146 | Saving a sale within [start, end] adds one row per line, and the added rows add up to the sale's total |
| Repositories.SavedSaleRow | src/inventory/services.py:116-146 | Saving a sale within [start, end] puts the row of its k-th line right after the earlier rows, at offset k |
| Repositories.SavedSaleRows | src/inventory/services.py:116-146 | Saving a sale within [start, end] adds, after the earlier rows, one row per line with the sale's id and the line's barcode, quantity and unit price |
| Repositories.SavedSaleInSummary | src/inventory/services.py:116-146 | Saving a sale within the range appends one row per line, carrying the sale's id, barcode, quantity and price, that add up to its total; outside the range nothing is added; earlier rows stay put |
| Repositories.SaleRepository.constructor | src/inventory/services.py:95-114 | The store holds the given sales, which may already exist, with the id counter where it stands; ids are positive, increasing in save order and not above the counter |
| Repositories.SaleRepository.SaveSale | src/inventory/services.py:116-124 | Appends one header with its lines under id = last id + 1, which is larger than every earlier id, and returns that id |
| Repositories.SaleRepository.GetSalesSummary | src/inventory/services.py:126-146 | Rows only from sales within [start, end], each total being quantity times unit price |
| Inventory.AppendedAllFiles | src/inventory/services.py:159-161 | Inserting the entries one row at a time gives each barcode's history exactly the new entries that name it, in order, after the old ones |
| Inventory.Added | src/inventory/services.py:154-161 | Fails with DuplicateBarcode if and only if the barcode is stored. Otherwise the product is stored, every other row is kept, and its history entries are persisted |
| Inventory.Refilled | src/inventory/services.py:163-168 | Fails with NotFound on an unknown barcode and with InvalidAmount on a negative amount. Succeeds if and only if the barcode is stored and the amount is not negative; then only that row's quantity rises, by exactly `amount` |
| Inventory.Edited | src/inventory/services.py:170-187 | Fails with NotFound if and only if the barcode is unknown. Otherwise only that row is updated. Exactly one history entry with the new prices is persisted if and only if a price really changed |
| Inventory.AddTwiceRejected | src/inventory/services.py:155-156 | Adding a barcode a second time fails with DuplicateBarcode |
| Inventory.RefillsAccumulate | src/inventory/services.py:163-168 | Refilling by m and then n equals refilling by m + n |
| Inventory.EditAgainAddsNoHistory | src/inventory/services.py:179-186 | Re-sending the same edit changes no row and persists no history |
| Inventory.HistoryAppendOnly | src/inventory/services.py:39-44 | No add, refill or edit removes or rewrites a stored history row |
| Inventory.RefillKeepsStockNonNegative | src/inventory/services.py:163-168 | A refill keeps every stored quantity non-negative |
| Inventory.InventoryService.constructor | src/inventory/services.py:150-152 | The in-memory list holds a fresh copy of every stored row, each barcode exactly once, each with its history newest first |
| Inventory.InventoryService.AddProduct | src/inventory/services.py:154-161 | The store becomes `Added(store, product, its history)`, and the list gains the product only on success |
| Inventory.InventoryService.RefillProduct | src/inventory/services.py:163-168 | The store becomes `Refilled(store, barcode, amount)`. No product object in the in-memory list changes, so the inventory table stays as it was |
| Inventory.InventoryService.EditProduct | src/inventory/services.py:170-187 | The store becomes `Edited(store, barcode, kwargs, now)`. No product object in the in-memory list changes, so the inventory table stays as it was |
| Inventory.InventoryService.GetProductByBarcode | src/inventory/services.py:189-190 | Null if and only if no row has that barcode. Otherwise a fresh copy of the stored row, with its history newest first |
| Inventory.InventoryService.GetProductsByName | src/inventory/services.py:192-193 | Fresh copies of exactly the stored rows whose name contains the fragment, each barcode once, each with its history newest first |
| Inventory.InventoryService.InventoryTable | src/inventory/services.py:195-196 | One entry per object in the in-memory list, in list order, holding all its attributes including its price history; the objects are read, not the store |
| SaleTransitions.AddItemStep | src/inventory/services.py:208-219 | Fails with NotFound on an unknown barcode and with InsufficientStock when the quantity exceeds the stock. Otherwise the row drops by exactly `quantity` and stays >= 0, other rows are unchanged, one line with the locked price is appended, and the total grows by that line's total |
| SaleTransitions.Returned | src/inventory/services.py:225 | The line's product is its snapshot with the line's units added to the quantity, every other column kept; the line's units and price are unchanged |
| SaleTransitions.RestoreItem | src/inventory/services.py:225-227 | The line's row is replaced, every column, by the line's snapshot with its units added back, whatever the row held; every other row is kept (the same write `cancel_sale` makes per line) |
| SaleTransitions.RestoreAll | src/inventory/services.py:232-234 | No row disappears, and the sale's last line decides its product's row: its snapshot plus its units |
| SaleTransitions.RestoreAllUntouched | src/inventory/services.py:232-234 | A row that no line of the sale names keeps its value |
| SaleTransitions.RestoreAllLastWriteWins | src/inventory/services.py:232-234 | A named product's row is the snapshot, plus units, of the last line naming it, whatever earlier lines wrote |
| SaleTransitions.RemoveItemStep | src/inventory/services.py:221-227 | Fails with IndexOutOfRange outside -n..n-1. Otherwise the picked line's snapshot plus its units is written back; for i >= 0 exactly line i is deleted and the total drops by its total; for i < 0 no line is deleted |
| SaleTransitions.AddThenRemoveRestores | src/inventory/services.py:208-227 | Adding a line and then removing it restores the store and the sale exactly |
| SaleTransitions.ReplayShape | src/inventory/services.py:208-219 | After a sale's additions there is one line per request, for its barcode and units. The store keeps the same barcodes, each row under its own barcode |
| SaleTransitions.ReplayReserves | src/inventory/services.py:208-219 | After a sale's additions, every row is short by exactly the units its lines hold |
| SaleTransitions.ReplaySnapshot | src/inventory/services.py:211-218 | The first line for a barcode holds the pre-sale row less its own units |
| SaleTransitions.RemoveRestoresPreSaleRow | src/inventory/services.py:221-227 | For the only line of its product, removing it puts that row back exactly as before the sale and deletes exactly that line |
| SaleTransitions.CancelRestoresStock | src/inventory/services.py:229-235 | With no two lines for the same product, cancelling puts every row back exactly as before the sale |
| SaleTransitions.RemoveRestoresStaleSnapshot | src/inventory/services.py:225-227 | With two lines for one product (3 and 2 units from 10), removing the first line as written stores 10 units while the 2-unit line stays in the sale |
| SaleTransitions.CancelLosesStockWithRepeatedBarcode | src/inventory/services.py:232-234 | With two lines for one product (3 and 2 units from 10), cancelling as written leaves 7 units |
| SaleTransitions.CancelRevertsEditDuringSale | src/inventory/services.py:232-234 | A retail price edited from 1.5 to 2.0 while a 3-unit line is open is written back as 1.5 by cancelling; restoring by delta keeps 2.0 |
| SaleTransitions.RestoreAllByDelta | src/inventory/services.py:232-234 | Restoring by adding each line's units to the current row raises each row by exactly the units its lines hold |
| SaleTransitions.CancelByDeltaRestoresStock | src/inventory/services.py:229-235 | With restore-by-delta, cancelling puts every row back as before the sale, repeated products or not |
| SaleTransitions.RemoveItemChecked | src/inventory/services.py:221-227 | Fails with IndexOutOfRange unless 0 <= i < n. Otherwise exactly line i is deleted, its units are added back to its row, and the total drops by its total |
| SaleTransitions.NegativeIndexRestoresWithoutRemoving | src/inventory/services.py:224-227 | remove_item(-1) on a 3-unit line from 10 restores 10 but keeps the line; a later cancel leaves 13 |
| Sales.SaleService.constructor | src/inventory/services.py:200-203 | No sale is open |
| Sales.SaleService.StartSale | src/inventory/services.py:205-206 | A new empty sale for the client is open; the store is not touched |
| Sales.SaleService.AddItem | src/inventory/services.py:208-219 | With no open sale, fails with NoOpenSale and leaves the store unchanged. Otherwise the outcome, the store and the lines are those of `AddItemStep`; history is untouched |
| Sales.SaleService.RemoveItem | src/inventory/services.py:221-227 | With no open sale, fails with NoOpenSale. Otherwise the outcome, the store and the lines are those of `RemoveItemStep` |
| Sales.SaleService.CancelSale | src/inventory/services.py:229-235 | Does nothing when no sale is open. Otherwise the store becomes `RestoreAll(store, lines)`, no sale is saved, and no sale is open afterwards |
| Sales.SaleService.FinalizeSale | src/inventory/services.py:237-244 | With no open sale, fails with NoOpenSale and saves nothing. Otherwise it returns the sum of line totals and appends one header plus its lines under the next id, advancing the id counter by one; with no open sale the counter stays. Stock is untouched, and afterwards no lines remain and the total is 0 |
| Sales.SaleService.Items | src/inventory/services.py:246-249 | The open sale's lines, or none when no sale is open |
| Sales.SaleService.Total | src/inventory/services.py:251-254 | The sum of the line totals, 0 with no sale open, and non-negative for non-negative lines |
| Sales.SaleService.SalesSummary | src/inventory/services.py:256-257 | Only rows of sales within [start, end] |

## Left out

- SQLite is not modelled: connections, table creation, SQL text and commits. Tables are maps and sequences, and there is no atomicity at the SQL level and no StorageFailure.
- The default arguments that build a store over the `inventory.db` file are not modelled. The services' constructors take the store objects, and the store constructors take the rows and sales the database file already holds.
- Repositories.InventoryRepository.GetProductsByName: SQL `LIKE` folds ASCII case and treats `%` and `_` as wildcards. The model uses a case-sensitive plain substring test.
- Repositories.InventoryRepository.ProductsWhere: the row order of an unordered `SELECT` is not modelled. The result has each matching barcode once, in an order the contract leaves open.
- Repositories.Summary: `ORDER BY timestamp` is modelled as save order. `SummaryAscending` shows the two agree when the clock never runs backwards. Nothing in the model establishes that clock: `SaveSale` and `FinalizeSale` accept any timestamp, so with a clock that runs backwards the model's order differs from the query's. Sorting ties and ISO-string comparison are not modelled.
- Repositories.NewestFirst: `ORDER BY timestamp DESC` is modelled as reverse insertion order. `NewestFirstDescending` shows the two agree under the same condition as above. Nothing establishes it: `add_product` persists the caller's entries with whatever timestamps they carry, in the caller's order (a list handed over newest first is read back oldest first by the model, while the query returns it newest first), and `edit_product` accepts any `now`.
- Floating-point prices are modelled as exact reals, so rounding is not captured.
- `datetime.now()` is modelled as an integer `now` parameter.
  - Inventory.InventoryService.EditProduct: the source reads the clock twice, once in `Product.update` and once for the persisted entry. The model uses one `now` for both.
- Models.Product.Update: the keyword arguments are the product's attributes plus unknown keys. Passing `barcode` or `price_history`, which Python would also set, is not modelled. No caller passes them.
- The history entry that `Product.update` appends and the one `edit_product` puts first in memory belong to a copy that is then dropped. Only the persisted history is stated.
- Models.SaleItem: the line holds the product's row as a value, not a shared object. Where the source changes that shared object, the model changes the line's value instead (`Returned` in `remove_item`). After `cancel_sale` the sale is gone, so its lines no longer matter.
- The tests' expectations that a fetched product is the very object that was added (tests/inventory/test_services.py:17, 25, 39-40) are not modelled. The code returns fresh copies.
- The GUI, ticket printing and the spreadsheet export are not modelled (src/gui/). They are user interface and device I/O.

## Findings

| source | as written | input that shows it | evidently intended | confidence | as-written member | corrected member |
|---|---|---|---|---|---|---|
| src/inventory/services.py:225-227, 232-234 | `remove_item` and `cancel_sale` write back the line's own product snapshot plus its units. That overwrites whatever the row holds now. | A product with 10 units; a sale adds 3, then 2 more, of it; `cancel_sale` leaves 7 units instead of 10, and `remove_item(0)` stores 10 units with 2 still in the sale (`RemoveRestoresStaleSnapshot`) | Give each line's units back by adding them to the current row, so cancelling restores the pre-sale stock | not executed | SaleTransitions.CancelLosesStockWithRepeatedBarcode | SaleTransitions.CancelByDeltaRestoresStock |
| src/inventory/services.py:227, 234 | `remove_item` and `cancel_sale` store the line's whole product snapshot, so an edit of name or prices made while the sale is open is reverted. | A product with 10 units at retail 1.5; a sale adds 3; the retail price is edited to 2.0; `cancel_sale` stores 10 units at retail 1.5 | Give back only the units, keeping every other column as the row holds it now | not executed | SaleTransitions.CancelRevertsEditDuringSale | SaleTransitions.RestoreAllByDelta |
| src/inventory/services.py:224-227 | `remove_item` indexes the list before `Sale.remove_item` range-checks it (models.py:73). A negative index gives the stock back but keeps the line. | A product with 10 units; a sale adds 3; `remove_item(-1)` leaves 10 units with the 3-unit line still in the sale; `cancel_sale` then leaves 13 | Reject every index outside 0..n-1 before writing anything | not executed | SaleTransitions.NegativeIndexRestoresWithoutRemoving | SaleTransitions.RemoveItemChecked |

The `SaleService` class models the code as written. The corrected definitions above show
what the restore writes should be.
