# Medicine ordering: order lifecycle and inventory

This project models the engine of a small medicine-ordering application. The engine is three process-wide dictionaries and the operations that change them:

- the **catalog**: medicine name to unit price and units in stock;
- the single global **cart**: medicine name to quantity;
- the **order ledger**: order id to owner, a snapshot of the cart, prescription text, status, delivery time and, for web orders, the total.

Two pure rules feed the engine:

- **Delivery rule**: an order is delivered at 18:00, on the same day if it is placed before 15:00 and on the next day otherwise.
- **Cost rule**: the price times quantity of every line whose medicine is listed and in stock, plus a flat fee of 417.5.

The operations come in two front ends:

- **Web** (`server.py`): the handlers check stock again when an order is placed. Cancelling checks the owner and puts the stock back.
- **Console** (`user_operation.py`, `admin_operation.py`): placing an order withdraws stock unchecked and prices the cart afterwards. Cancelling deletes the order but keeps the stock withdrawn.

## Structure

- `sums.dfy` (module `Sums`): the sum of the values of a finite map, independent of iteration order, and restriction of a map to a key set.
- `text.dfy` (module `Text`): `str.lower()`, `str.strip()` and substring containment on ASCII text.
- `data_storage.dfy` (module `DataStorage`):
  - the entities `Medicine`, `Order`, `Status`, `Error` and `Outcome`;
  - the delivery rule and the cost rule;
  - the stock movements `Withdraw` and `Restock`;
  - the class `Store`, which holds the three dictionaries as mutable fields, and its invariant `Safe()`. `Safe()` says that no stock is negative and that no cart line or ordered line has a negative quantity.
- `server.dfy` (module `Server`): the web handlers. Each one mutates the `Store` and answers `Ok` or `Fail(reason)`.
- `user_operation.dfy` (module `UserOperation`): the console user operations.
- `admin_operation.dfy` (module `AdminOperation`): the branches of the console admin menu, one operation each.

Inputs that the source reads from the outside world are parameters:

- the JSON request fields;
- the `input()` answers;
- the clock reading `now`, as integer seconds;
- the session's admin flag `isAdmin`;
- the generated order id, with the precondition that it is not yet in the ledger.

A web handler's `if not username` is an empty `username`. A `KeyError` raised by indexing the catalog with a name that has since been removed is the failure `MedicineNotFound(name)`, and the state at that point is what the model leaves behind.

## Model

| member | source | states |
|---|---|---|
| DataStorage.DeliveryTime | data_storage.py:81-90 | the delivery time is exactly 18:00:00 of the day of `now` when the hour is below 15, and of the next day otherwise; the nested `hour >= 18` test is kept and never changes the result |
| DataStorage.DeliveryLeadTime | data_storage.py:84-89 | delivery is more than 3 hours and at most 27 hours after `now` |
| DataStorage.CancellableWhenPlaced | server.py:377-380 | an order recorded at `now` with the delivery time of `now` is still inside the cancellation window at `now` |
| DataStorage.ParseStatusExact | admin_operation.py:50 | exactly the strings "Processing", "Shipped" and "Delivered" are accepted, each as the status it names |
| DataStorage.CalculateTotalCost | data_storage.py:92-98 | the loop returns 417.5 plus price times quantity over the lines whose medicine is listed with stock at least the quantity; it never fails and changes nothing |
| DataStorage.EmptyItemsCostFee | data_storage.py:97-98 | an empty item map costs exactly 417.5 |
| DataStorage.UnqualifiedLineAddsNothing | data_storage.py:95 | a line naming an unlisted medicine, or asking for more than its stock, contributes nothing |
| DataStorage.QualifiedLineAddsPrice | data_storage.py:95-96 | a line that is listed and covered by stock contributes its price times its quantity |
| DataStorage.TotalCostAtLeastFee | data_storage.py:93-98 | with non-negative prices and quantities the total is at least 417.5 |
| DataStorage.CoveredItemsCostEveryLine | server.py:303-309 | when every line is covered by stock, the total is the fee plus the full subtotal |
| DataStorage.RestockUndoesWithdraw | server.py:321-322 | adding back the quantities that were withdrawn restores the catalog exactly |
| DataStorage.OneLineStock | server.py:321-322 | withdrawing or restocking a one-line map changes only that medicine's stock, and the line is covered exactly when the stock is at least its quantity |
| DataStorage.LedgerChange | server.py:311-318 | recording an order whose quantities are non-negative, or deleting an order, keeps every ledger quantity non-negative |
| DataStorage.WithdrawCoveredKeepsStock | server.py:303-305 | withdrawing quantities the stock covers leaves every stock non-negative |
| DataStorage.RestockKeepsStock | server.py:384-386 | adding back non-negative quantities leaves every stock non-negative |
| DataStorage.WithdrawStep | server.py:321-322 | one more iteration of the decrement loop changes only that medicine's entry |
| DataStorage.RestockStep | server.py:384-386 | one more iteration of the restore loop changes only that medicine's entry |
| DataStorage.RestockSkip | server.py:385 | a line whose medicine is no longer listed is skipped by the restore loop |
| DataStorage.Store.constructor | data_storage.py:102 | the store holds exactly the loaded catalog, cart and ledger |
| DataStorage.Store.SetStatus | server.py:454 | overwriting an order's status changes only that order's status, to any of the three values, and keeps `Safe()` |
| Text.Lower | user_operation.py:40 | lower-casing keeps the length, turns each upper-case letter into its own lower-case letter and keeps every other character |
| Text.Strip | server.py:404 | the stripped string has no white space at either end and occurs inside the original at a place where everything before and after it is white space, so only leading and trailing white space is removed |
| Text.TrimmedShape | server.py:404 | trimming the start and then the end leaves the original with only white space around it |
| Server.AddToCart | server.py:224-236 | fails on an empty user, an empty or unlisted name, or `stock < quantity`, leaving the cart unchanged; otherwise the line becomes its old value (or 0) plus `quantity` and nothing else changes; a zero or negative quantity is accepted |
| Server.AddToCartPositive | server.py:224-236 | the same handler with quantities of zero or less refused; it always keeps `Safe()` |
| Server.BulkAddCounts | server.py:215-217 | after the bulk branch, each listed name has gained one unit per occurrence in the request; unlisted names change nothing; the new keys are the listed names |
| Server.ListedCounts | server.py:216-218 | the reported names are the listed names of the request, repeats included |
| Server.BulkAddStep | server.py:215-218 | one more name in the request changes the cart and the report by that name only, and only if it is listed |
| Server.AddToCartBulk | server.py:212-223 | the bulk branch succeeds for any authenticated user, with no stock check; the cart and the report are those of the whole request |
| Server.UpdateCart | server.py:246-268 | an unlisted name fails; a quantity of zero or less removes the line if present; a positive quantity within stock replaces the line; a positive quantity above stock fails; every failure leaves the cart unchanged |
| Server.RemoveFromCart | server.py:270-284 | deletes exactly the named line if present; otherwise fails with the cart unchanged |
| Server.CheckStock | server.py:302-305 | succeeds exactly when every cart line is listed with enough stock; a refusal names a line that fails the check |
| Server.PlaceOrder | server.py:287-333 | an empty user, an empty cart, an empty prescription or any uncovered line fails with nothing changed; otherwise exactly one new order holds the old cart with status Processing, the delivery time of `now` and the total 417.5 plus the full subtotal, each stock drops by its quantity, the cart is emptied, and `Safe()` is kept |
| Server.TakeStock | server.py:320-322 | the decrement loop takes each line's quantity off its medicine's stock and nothing else |
| Server.ReturnStock | server.py:383-386 | the restore loop adds each line's quantity back to its medicine if still listed and nothing else |
| Server.OrdersOfOwnerOnly | server.py:342-343 | an order is listed for its owner and for nobody else |
| Server.GetOrders | server.py:335-350 | lists exactly the orders of the given user, unchanged |
| Server.CancelOrder | server.py:352-391 | fails in source order (no user, missing order, other owner, not Processing, at or after 30 minutes before delivery) with nothing changed; otherwise restores each ordered quantity to every medicine still listed, deletes the order, leaves the cart alone and keeps `Safe()` |
| Server.PlaceThenCancel | server.py:287-391 | placing at `now` and cancelling at any instant before 30 minutes ahead of delivery, with nothing in between, gives back the catalog and the ledger exactly, and leaves the cart empty |
| Server.AddFullStockTwice | server.py:231-234 | two adds of the full stock both succeed, so the cart line reaches twice the stock |
| Server.AddThenPlace | server.py:224-325 | adding one line to an empty cart and placing it withdraws that quantity, records one cancellable order with that line, and empties the cart |
| Server.NegativeQuantityDrainsStock | server.py:228-234 | from a safe state, adding −3 and ordering, letting a second user order all 13 units, then cancelling the first order leaves stock −3 |
| Server.AdminAddMedicine | server.py:399-416 | refuses a non-admin, a blank stripped name, a negative price or stock, or an existing name, with the catalog unchanged; otherwise adds exactly that one entry |
| Server.AdminRemoveMedicine | server.py:418-428 | refuses a non-admin or a missing stripped name; otherwise deletes only that entry |
| Server.AdminOrders | server.py:430-441 | an admin receives exactly the whole ledger, and it is read-only |
| Server.AdminUpdateOrder | server.py:443-456 | refuses a non-admin, a missing stripped id or an invalid stripped status; otherwise overwrites only that order's status, with any of the three values |
| UserOperation.PasswordRule | user_operation.py:7-8 | the verdict depends on the length alone, a valid password stays valid when extended, five characters are refused and six accepted |
| UserOperation.Matches | user_operation.py:42-43 | the reported names are exactly the listed names whose lower-cased form contains the lower-cased query |
| UserOperation.EmptyQueryMatchesAll | user_operation.py:40-43 | the empty query reports every listed medicine |
| UserOperation.NameFindsItself | user_operation.py:40-43 | a listed name is found by itself, in any case |
| UserOperation.SearchIgnoresQueryCase | user_operation.py:40 | lower-casing the query does not change the result |
| UserOperation.SearchMedicines | user_operation.py:39-49 | the loop reports exactly the matching names, and `found` is false exactly when there are none |
| UserOperation.AddToCart | user_operation.py:51-68 | refuses an unlisted name, a quantity of zero or less, or more than the stock, with the cart unchanged; otherwise adds `quantity` to the line and keeps `Safe()` |
| UserOperation.ViewCart | user_operation.py:127-139 | an empty cart is reported as such; otherwise the subtotal is price times quantity summed over the cart, without the fee; a line whose medicine is no longer listed stops the walk |
| UserOperation.TakeStockUnchecked | user_operation.py:88-89 | every line's quantity is taken off its stock without any check; a line whose medicine is no longer listed stops the loop with some lines already withdrawn |
| UserOperation.PlaceOrder | user_operation.py:74-95 | an empty cart changes nothing; otherwise the order is recorded first without a total, the stock is withdrawn unchecked, the total is the cost rule applied to the withdrawn catalog, and the cart is emptied |
| UserOperation.CancelOrder | user_operation.py:97-116 | a missing order, a status other than Processing, or a time at or after 30 minutes before delivery changes nothing; otherwise the order is deleted by anyone, the stock is not given back, and `Safe()` is kept |
| UserOperation.WithdrawChangesStock | user_operation.py:88-89 | withdrawing a non-zero quantity of a listed medicine changes its stock by that quantity |
| UserOperation.PlaceThenCancel | user_operation.py:74-116 | console place at `now` and cancel at any instant before the cutoff both succeed and restore the ledger, but the stock stays withdrawn |
| UserOperation.OverdrawByRepeatedAdd | user_operation.py:61-89 | from a safe state with stock 5, two adds of 5 both pass and placing the order leaves stock −5 |
| UserOperation.WithdrawnLineCost | user_operation.py:88-91 | after the withdrawal a line still counts in the console total only if the old stock was at least twice its quantity |
| UserOperation.OneLineCost | data_storage.py:92-98 | a one-line cart costs the fee plus that line's cost |
| UserOperation.TotalDropsLine | user_operation.py:88-93 | 100 of 150 units at 10.0 each are reported as 417.5, while the same cart priced before the withdrawal costs 1417.5 |
| AdminOperation.AddMedicine | admin_operation.py:13-34 | an existing name is refused first, then a negative price or stock, then any confirmation whose lower-cased form is not "yes"; otherwise exactly the one entry is added |
| AdminOperation.ConfirmIgnoresCase | admin_operation.py:26-27 | an answer confirms exactly when it is the three letters y, e, s, each in either case |
| AdminOperation.RemoveMedicine | admin_operation.py:35-42 | deletes exactly the named medicine; a missing name changes nothing |
| AdminOperation.OrderRows | admin_operation.py:44-45 | the listing has one row per order, carrying its id, owner, items and status |
| AdminOperation.OrderRowsOnePerOrder | admin_operation.py:44-45 | every order appears in the listing, exactly once |
| AdminOperation.ViewOrders | admin_operation.py:43-45 | choice 3 lists every order and modifies nothing |
| AdminOperation.UpdateOrderStatus | admin_operation.py:46-57 | a missing order or a status other than the three exact names changes nothing; otherwise only that order's status is overwritten, and any transition is allowed |
| AdminOperation.ViewStock | admin_operation.py:58-64 | choice 5 reports an empty catalog as such and otherwise shows every entry, modifying nothing |

## Left out

- Web plumbing is not modelled: Flask routing, CORS, the preflight route, templates, the session and `is_admin()` (the admin check is the `isAdmin` parameter), and the HTTP status codes.
- Prescription text extraction is not modelled: the external language-model call and the `difflib` fuzzy fallback.
- SQLite persistence is not modelled: `init_db`, `load_data`, `save_data` and the text round trip of order items. Every `save_data` call is a commit with no effect on the model.
- Provisioning the admin user at start-up is not modelled, because it belongs to persistence.
- `generate_order_id` is not modelled, because it draws a random UUID. The id is a parameter and must not be in the ledger yet.
- Wall-clock time is simplified. `datetime.now()` and `strptime` are replaced by integer seconds passed in, with no time zone, no daylight saving and no microseconds.
- Login, registration, the user records and password comparison are not modelled, because they are credential handling. Only `validate_password` is modelled.
- The prescription photo upload, and the whole of `main.py`, are not modelled: they are subprocesses, HTTP and a browser, and an interactive menu dispatcher. From `main.py` the model keeps only one fact: it catches nothing but `ValueError`. So a `KeyError` in the console `place_order` or `view_cart` ends the program with the in-memory state as the model's failure leaves it.
- The read-only handlers `get_cart` and `get_medicines` are not modelled, and neither is the console `date_of_arrival`, which only prints a stored field.
- Money is exact `real`, so IEEE rounding of prices and of the 417.5 fee is not modelled.
- Concurrent web requests sharing the dictionaries are not modelled. The state is strictly sequential.
- `Text.Lower` and `Text.Strip` cover ASCII only. Non-ASCII case mapping and Unicode white space are not modelled.
- Iteration and print order are not modelled. The source walks dictionaries in insertion order and prints as it goes. The model returns the reported names, rows and orders as sets and maps. A console walk that stops on a missing medicine does so at some line, not at the first line in insertion order.
- The JSON types of request fields are not modelled. A web quantity is an integer, and its default of 1 when absent is not modelled. A non-numeric console quantity, price or stock (the `ValueError` branches) is not modelled.
- A prescription of white space alone is accepted. The web `place_order` refuses only the empty string, because its test is `not prescription`, and the model follows that test rather than refusing every blank prescription.

## Findings

| source | as written | input that shows it | evidently intended | confidence | as-written member | corrected member |
|---|---|---|---|---|---|---|
| server.py:226-234 | the single-item web `add_to_cart` compares only `stock < quantity`, so a zero or negative quantity is accepted into the cart | catalog {m: price 10.0, stock 10}; user a adds −3 and places, stock 13; user b adds 13 and places, stock 0; a cancels, stock −3 | quantities of zero or less are refused, as the console `add_to_cart` does at user_operation.py:58, so every web handler keeps stock non-negative | not executed | Server.NegativeQuantityDrainsStock | Server.AddToCartPositive |
| user_operation.py:88-89 | console `place_order` withdraws every cart line without checking stock, and console `add_to_cart` compares only the increment with the stock | catalog {m: price 10.0, stock 5}; add 5, add 5, place: stock −5 | stock is checked before it is withdrawn, as the web `place_order` does at server.py:303-305, so stock never goes negative | not executed | UserOperation.OverdrawByRepeatedAdd | Server.PlaceOrder |
| user_operation.py:88-91 | the console total is computed after the stock decrement, so a line whose remaining stock is below its quantity drops out of the total | cart {m: 100}, catalog {m: price 10.0, stock 150}: reported 417.5, owed 1417.5 | the cart is priced before the withdrawal, as the web `place_order` does at server.py:309, so the total is the fee plus the full subtotal | not executed | UserOperation.TotalDropsLine | Server.PlaceOrder |
