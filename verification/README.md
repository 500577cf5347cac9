# BillingSystem core in Dafny

This project models the business logic of BillingSystem, a Django back office
for a catering business. It covers:

- **Catering orders** (`ordersapp`). An order carries a denormalised
  `received_amount`. The payment rows are the ledger it must agree with.
  The model covers the create, payment-entry, edit, list and delete handlers.
- **The dashboard** (`core/views.py`): money aggregates, the
  unpaid/partial/paid classification, delivery-window counts, distinct
  customers and the eight most recent orders.
- **The supplier ledger** (`suppliers/models.py`). A supplier's
  `total_paid` and `total_purchases` are recomputed from scratch by the save
  and delete hooks of payments and purchase-order items. Suppliers and
  purchase orders number themselves on their first save.
- **Inventory** (`inventory`): the save hook that assigns `STK-nnnn` codes
  and mirrors the description, `__str__`, `add_stock` and `mark_returned`.
- **The expense report** (`expenses/views.py`): lenient date parsing,
  window and category filtering, newest-first order and the total.
- **Customers**: the `CustomerForm` validators and the case-insensitive list
  search.
- **Catering forms** (`ordersapp/forms.py`): the guest-count validator and
  the CSS-class merge done by every form's `__init__`.
- **The login middleware**: its allow-list and redirect.

How the model represents these things:

- Money (`Decimal`) is `real`, and dates are day ordinals (`int`).
- Database tables are sequences of rows. Every aggregate is a sum, so row
  order never matters. Suppliers are a map from primary key to row.
- A save is an upsert: the row with the same key is dropped and the new row
  is appended.
- Code Dafny cannot see is passed in as a function parameter. This covers
  the decimal constructor, Django's `parse_date` and `strptime`.

The central properties proved are ledger invariants:

- `create_order` with a non-negative opening amount, followed by any number
  of `payment_entry` calls, keeps every order's `received_amount` equal to
  the sum of its payments. Editing and deleting an order keep the same
  invariant.
- Payment saves that keep the payment's supplier, and payment deletes, keep
  every supplier's `total_paid` equal to the sum of its payments.
- Item saves that keep the item on its order, and purchase-order saves that
  keep the order's supplier and total, keep every purchase-order total and
  every supplier's `total_purchases` equal to their sums.

The code breaks these invariants in five ways, and a lemma exhibits each
break:

- a negative opening amount in `create_order`;
- a payment moved to another supplier;
- a purchase order moved to another supplier;
- an item moved to another order;
- an item deleted.

The admin leaves the parent fields of payments, purchase orders and items
editable, so each move can happen.

The model keeps these behaviours of the code:

- Deleting a purchase-order item does not recompute any total.
  `PurchaseOrderItem` has no `delete` override.
- A payment or item moved to another parent recomputes only the new parent.
  A purchase order moved to another supplier recomputes neither supplier.
- A blank `delivery_date` in `create_order` is an error, not an order
  without a date. The column is `NOT NULL`.
- The customer-type choices are `BUS`/`IND`, so the `company` address rule
  can never fire.

## Model

| member | source | states |
|---|---|---|
| OrderModels.DueAmount | ordersapp/models.py:19-22 | due plus received is the total; due is negative exactly when the order is overpaid (no clamping) |
| OrderModels.NewOrder | ordersapp/models.py:12-14 | an order created without a received amount owes its whole total |
| OrderModels.NewPayment | ordersapp/models.py:32-35 | a payment created with only order and amount is cash, dated today |
| OrderModels.PaymentsOf | ordersapp/models.py:32 | `order.payments.all()` holds exactly the payment rows whose foreign key is the order, each as often as it occurs in the table |
| OrderModels.PaidForAppend | ordersapp/models.py:32-33 | a new payment raises its own order's paid total by its amount and no other order's |
| OrderModels.PaidForNone | ordersapp/models.py:32-33 | an order without payments has paid total zero |
| OrderModels.DeleteOrder | ordersapp/views.py:121-127 | deleting an order removes it and, by cascade, exactly its payments; every other order and payment row survives as often as it occurred |
| OrderModels.DeleteOrderKeepsSynced | ordersapp/models.py:32 | after the cascade delete every remaining order's received amount still equals its payments |
| OrderModels.DeleteOrderKeepsWellFormed | ordersapp/models.py:32 | after the cascade delete keys stay unique and every payment still has its order |
| OrderModels.WithoutPaymentsOfKeepsOthers | ordersapp/models.py:32 | the cascade leaves the payments of every other order untouched |
| OrderViews.AmountOrZero | ordersapp/views.py:25-33 | blank text and text the decimal constructor rejects both become 0; anything else is its parsed value |
| OrderViews.OpenOrder | ordersapp/views.py:36-49 | the new order gets the next key and the opening amount as received; a payment row is written only for a positive amount |
| OrderViews.CreateOrder | ordersapp/views.py:15-51 | a blank delivery date is a missing-value error, a malformed one a validation error; otherwise the stripped fields and parsed amounts open an order |
| OrderViews.Credit | ordersapp/views.py:81-83 | only the order with the given id has its received amount raised, by exactly the amount |
| OrderViews.PaymentEntry | ordersapp/views.py:68-87 | a missing order is a 404; a non-positive or unparseable amount changes nothing; a positive one appends one payment and raises only that order's received amount by it |
| OrderViews.EditOrder | ordersapp/views.py:96-115 | an invalid form changes nothing; a valid one overwrites details and total of that order only, never its received amount or the payments |
| OrderViews.ListOrders | ordersapp/views.py:59-62 | the listing is a permutation of the orders, highest id first |
| OrderViews.NoPaymentsForNextId | ordersapp/models.py:32 | in a well-formed book no payment refers to the key the next order will get |
| OrderViews.OpenOrderKeepsSynced | ordersapp/views.py:36-49 | opening an order with a non-negative amount keeps every received amount equal to its payments |
| OrderViews.OpenOrderKeepsWellFormed | ordersapp/views.py:36-49 | opening an order keeps keys unique and every payment attached to an order |
| OrderViews.CreateOrderKeepsSynced | ordersapp/views.py:15-51 | a successful create with a non-negative opening amount keeps the book well formed and in sync |
| OrderViews.NegativeOpeningAmountBreaksSync | ordersapp/views.py:44-49 | a negative opening amount is stored as received with no payment row, so the ledger is out of sync |
| OrderViews.CreditKeepsIds | ordersapp/views.py:81-83 | crediting changes no primary key and keeps keys unique |
| OrderViews.CreditAndRecordKeepsWellFormed | ordersapp/views.py:77-83 | crediting an existing order and recording its payment keeps the book well formed |
| OrderViews.PaymentEntryKeepsWellFormed | ordersapp/views.py:68-87 | a payment entry keeps keys unique and every payment attached to an order |
| OrderViews.PaymentEntryKeepsSynced | ordersapp/views.py:77-83 | the payment row and the received-amount increment move together, so the ledger stays in sync |
| OrderViews.ReplayKeepsSynced | ordersapp/views.py:68-87 | any sequence of payment entries, 404s included, keeps the book well formed and in sync |
| OrderViews.CreateThenPaymentsSynced | ordersapp/views.py:15-87 | create with a non-negative opening amount followed by any payment entries leaves every received amount equal to its payments |
| OrderViews.EditOrderKeepsSynced | ordersapp/views.py:96-103 | the edit form excludes the received amount, so editing cannot break the ledger |
| Dashboard.CountDeliveredOn | core/views.py:39 | today's deliveries are the number of orders whose delivery date is today (so at most the number of orders) |
| Dashboard.CountDeliveredWithinWeek | core/views.py:40 | upcoming deliveries are the number of orders delivered after today and no later than a week ahead (so at most the number of orders) |
| Dashboard.CustomerNames | core/views.py:43 | the distinct customer names are exactly the names some order carries, at most one per order |
| Dashboard.RecentOrders | core/views.py:46 | at most eight orders, drawn from the table without duplication, in descending id order |
| Dashboard.RecentOrdersAreNewest | core/views.py:46 | every order left out of the recent list has an id no larger than every order shown |
| Dashboard.Index | core/views.py:8-64 | billed, received and outstanding are the sums over all orders of total, received and positive due; the class counts, delivery counts, distinct customers and recent orders are those of the order table; pending due equals outstanding; outstanding is non-negative, at least billed minus received, and equal to it iff no order is overpaid; billed minus received is the sum of due amounts; empty table gives zeros; class counts add up to the order count plus the unpaid-and-paid overlap |
| Dashboard.Classification | core/views.py:32-36 | partial excludes unpaid and paid; every order is in some class; unpaid and paid overlap exactly when total <= received <= 0 |
| Dashboard.ClassCounts | core/views.py:32-36 | the three class counts add to the order count plus the number of orders in both unpaid and paid |
| Dashboard.PendingPlusPaid | core/views.py:54-57 | pending plus paid counts every order once, plus the overlap |
| Dashboard.DeliveryWindowsDisjoint | core/views.py:39-40 | no single order is both delivered today and due within the week, so the two counts add up to the number of orders in either window and never exceed the number of orders |
| Dashboard.DueSum | core/views.py:15-16 | total billed minus total received is the sum of the orders' due amounts |
| Dashboard.OutstandingVersusDue | core/views.py:17-28 | the clamped outstanding sum is at least billed minus received, and equal iff no order is overpaid |
| Text.PrefixedCode | suppliers/models.py:39 | a numbered code is its prefix followed by the number's digits zero-padded to exactly `width` (longer only when the number needs more digits), and they read back as the number |
| SupplierLedger.BalanceDue | suppliers/models.py:31-34 | balance plus paid is purchases; negative exactly when paid exceeds purchases |
| SupplierLedger.SupplierCodeInjective | suppliers/models.py:39 | distinct keys give distinct supplier codes, and the digits read back as the key |
| SupplierLedger.OrderCodeInjective | suppliers/models.py:118 | distinct keys give distinct order numbers, and the digits read back as the key |
| SupplierLedger.AssignSupplierId | suppliers/models.py:36-40 | an empty id is replaced by the code of the key; an id already set is kept |
| SupplierLedger.SaveSupplier | suppliers/models.py:36-40 | the supplier is stored under its key, numbered if needed; no other row changes |
| SupplierLedger.SaveSupplierIdempotent | suppliers/models.py:36-40 | saving the saved supplier again changes nothing |
| SupplierLedger.PaymentsTo | suppliers/models.py:57 | `supplier.payments.all()` holds exactly the payments with that supplier, each as often as it is on file, and no other row |
| SupplierLedger.StorePayment | suppliers/models.py:68 | the stored table holds the new row once, every old row with another key as often as before, and no old row with the same key |
| SupplierLedger.RecomputePaid | suppliers/models.py:70-73 | that supplier's `total_paid` becomes the sum of its payments on file; the save also gives it its code when its id is empty; name and purchases are kept, and every other supplier and table is untouched |
| SupplierLedger.SavePayment | suppliers/models.py:67-73 | the row is upserted (once, replacing any row with its key, every other row kept with its multiplicity); the paying supplier's `total_paid` becomes the sum of its payments; its name and purchases are kept, its id is kept or, when empty, becomes its code; every other supplier, order and item unchanged |
| SupplierLedger.DeletePayment | suppliers/models.py:75-82 | every row with that key is removed (none, when it is already gone, and the total is still recomputed) and every other row kept with its multiplicity; its supplier's `total_paid` becomes the sum of the remaining payments, its name and purchases are kept, and its id is kept or, when empty, becomes its code; other suppliers, orders and items unchanged |
| SupplierLedger.PaymentsToWithout | suppliers/models.py:70-72 | removing a payment leaves the payments of every other supplier as they were |
| SupplierLedger.PaidToStore | suppliers/models.py:68-72 | the stored payment adds its amount to its own supplier's sum only |
| SupplierLedger.SaveNewPaymentAddsAmount | suppliers/models.py:67-73 | a new payment raises its supplier's `total_paid` by exactly its amount |
| SupplierLedger.SavePaymentKeepsPaidSynced | suppliers/models.py:67-73 | a payment save that keeps its supplier keeps every `total_paid` equal to its payments |
| SupplierLedger.DeletePaymentKeepsPaidSynced | suppliers/models.py:75-82 | a payment delete keeps every `total_paid` equal to its payments |
| SupplierLedger.SavePaymentIdempotent | suppliers/models.py:67-73 | saving the same payment twice leaves the ledger as one save did |
| SupplierLedger.SavePaymentMovesBalanceOnlyByPaid | suppliers/models.py:31-34 | after a payment save the balance is the unchanged purchases minus the recomputed paid total |
| SupplierLedger.MovedPaymentLeavesOldTotalStale | suppliers/models.py:67-73 | moving a payment to another supplier leaves the old supplier's `total_paid` at 100 with no payments |
| SupplierLedger.OrderIndex | suppliers/models.py:129 | the position found holds the order with that key, and no earlier position does |
| SupplierLedger.AssignOrderNumber | suppliers/models.py:115-119 | an empty order number becomes the code of the key; one already set is kept |
| SupplierLedger.SavePurchaseOrder | suppliers/models.py:115-119 | the order, numbered if needed, is stored once, every order with another key is kept with its multiplicity and none with the same key; suppliers, payments and items are untouched |
| SupplierLedger.SavePurchaseOrderKeepsPurchasesSynced | suppliers/models.py:115-119 | a purchase-order save that keeps the row's supplier and total, or adds an empty order of total 0, keeps every order total and every supplier's purchases equal to their sums |
| SupplierLedger.MovedOrderLeavesPurchasesStale | suppliers/models.py:115-119 | in any ledger in step, moving an order to another supplier leaves the old supplier's purchases above the sum of its remaining orders by exactly the moved total, so the ledger falls out of step whenever that total is not 0 |
| SupplierLedger.ItemsOf | suppliers/models.py:129 | `purchase_order.items.all()` holds exactly the items with that order, each as often as it is on file |
| SupplierLedger.OrdersOf | suppliers/models.py:104 | `supplier.purchase_orders.all()` holds exactly the orders with that supplier, each as often as it is on file |
| SupplierLedger.StoreItem | suppliers/models.py:140 | the stored table holds the new item once, every old item with another key as often as before, and no old item with the same key |
| SupplierLedger.SaveItem | suppliers/models.py:138-152 | the item is upserted with line total quantity times unit price, other items kept with their multiplicity; its order's total becomes the sum of its items and the order gets its number when it has none; the supplier's purchases become the sum of its orders, its name and `total_paid` are kept and it gets its code when its id is empty; payments, other orders and other suppliers unchanged |
| SupplierLedger.DeleteItem | suppliers/models.py:126-155 | every item with that key is removed and every other item kept with its multiplicity; suppliers, orders and payments are untouched, so no total is recomputed |
| SupplierLedger.ItemsOfStore | suppliers/models.py:143-145 | storing an item leaves the items of every other order alone |
| SupplierLedger.OrdersOfUpdate | suppliers/models.py:149-151 | rewriting one order of a supplier leaves every other supplier's orders alone |
| SupplierLedger.SaveItemKeepsOtherOrder | suppliers/models.py:138-146 | an item save leaves every other order and its item sum unchanged |
| SupplierLedger.SaveItemKeepsOrderTotals | suppliers/models.py:142-146 | an item save keeps every order total equal to the sum of its items |
| SupplierLedger.SaveItemKeepsSupplierPurchases | suppliers/models.py:148-152 | an item save keeps every supplier's purchases equal to the sum of its orders |
| SupplierLedger.SaveItemKeepsPurchasesSynced | suppliers/models.py:138-152 | an item save that keeps its order keeps both purchase sums in step |
| SupplierLedger.DeleteItemLeavesTotalsStale | suppliers/models.py:126-155 | after deleting the only item of 300, order and supplier still show 300 although the items sum to 0 |
| SupplierLedger.MovedItemLeavesOldOrderStale | suppliers/models.py:138-152 | moving the only item of 300 to another order of the same supplier leaves the old order at 300 with no items, breaking the sums |
| SupplierLedger.SampleFirstItem | suppliers/management/commands/create_sample_data.py:153-158 | 50 units at 6 are stored with line total 300 |
| SupplierLedger.SampleSecondItem | suppliers/management/commands/create_sample_data.py:159-164 | 20 units at 8.5 bring the supplier's purchases to 470 |
| SupplierLedger.SamplePayments | suppliers/management/commands/create_sample_data.py:189-205 | payments of 500 and 200 give `total_paid` 700 and leave purchases alone |
| SupplierLedger.SampleBalance | suppliers/management/commands/create_sample_data.py:115-205 | the sample supplier has bought 470, paid 700, and has balance due -230 |
| Inventory.Save | inventory/models.py:45-55 | an empty stock code becomes the code one past the row count; an empty `items_taken` takes the description; nothing else changes |
| Inventory.SavedItemLabel | inventory/models.py:57-58 | a saved item's label is its stock code, never empty |
| Inventory.SaveIdempotent | inventory/models.py:45-55 | saving a saved item again changes nothing, whatever the row count |
| Inventory.StockCodeInjective | inventory/models.py:48-49 | different counts give different stock codes, and the digits after "STK-" read back as the count |
| Inventory.CodeRepeatsAfterDeletion | inventory/models.py:47-49 | after a deletion a new item gets the code STK-0002 that a surviving item already has |
| Inventory.NumberOrZero | inventory/views.py:26-32 | a missing or empty field is 0; other text is its parsed value, and unparseable text is an error |
| Inventory.AddStock | inventory/views.py:7-38 | succeeds iff both numbers parse; "rent" gives an asset and anything else raw stock; the name is the form's stock name; the three quantities and price and cost come from the form; description "<category> item" is mirrored; the code is one past the count |
| Inventory.AddedItemIsSaved | inventory/views.py:23-33 | an item `add_stock` created is a fixed point of the save hook, and marking it returned changes nothing since it starts fully available |
| Inventory.MarkReturned | inventory/views.py:72-78 | an asset's available quantity is reset to the quantity on hand, the save gives it a code and items-taken text when those are empty, and every other field is kept; any other item is untouched |
| Inventory.MarkReturnedIdempotent | inventory/views.py:72-78 | marking an item returned twice is the same as once |
| ExpenseReport.ParseDateAny | expenses/views.py:15-26 | blank is no date; an ISO date wins, then month-first, then day-first; an impossible ISO date is an error; otherwise no date |
| ExpenseReport.IsoTakesPrecedence | expenses/views.py:18-20 | an ISO date is returned without trying the slash formats |
| ExpenseReport.AmbiguousReadsMonthFirst | expenses/views.py:21-23 | text both slash formats accept is read month first |
| ExpenseReport.DateKeptIsWindow | expenses/views.py:83-88 | the four filter branches are one rule: each present bound is inclusive |
| ExpenseReport.Select | expenses/views.py:82-90 | exactly the expenses in the window and category are kept, each as often as it occurs in the table |
| ExpenseReport.BuildReport | expenses/views.py:70-93 | an impossible ISO bound is an error; otherwise the rows are a permutation of the kept expenses, date then id descending, and the total is their sum (0 when empty) |
| ExpenseReport.UnparseableBoundIgnored | expenses/views.py:76-88 | a bound that parses to nothing gives the same report as no bound |
| ExpenseReport.CategoryNarrows | expenses/views.py:89-90 | choosing a category keeps a sub-multiset of the rows shown without one |
| CustomerForm.CleanName | customers/forms.py:9-14 | the stripped name is accepted iff non-empty |
| CustomerForm.CleanPhone | customers/forms.py:15-19 | the stripped phone is accepted iff it is non-empty and all digits |
| CustomerForm.CleanEmail | customers/forms.py:21-25 | the stripped email is accepted iff it does not contain "@example.com" |
| CustomerForm.CleanForm | customers/forms.py:27-32 | the form fails iff the type is "company" and the address is missing or empty |
| CustomerForm.CompanyRuleNeverFires | customers/models.py:5-6 | with the declared types "BUS" and "IND" the company rule never fails a form |
| CustomerForm.CleanersIdempotent | customers/forms.py:9-25 | each cleaner accepts its own output unchanged |
| CustomerForm.BlankPhoneRejected | customers/forms.py:15-19 | a phone of only whitespace is rejected |
| CustomerSearch.FilterMatching | customers/views.py:20-22 | exactly the customers whose name or CNIC contains the query, ignoring case, each as often as it occurs |
| CustomerSearch.Search | customers/views.py:16-23 | an empty query lists everyone; otherwise exactly the matching customers, each as often as it occurs |
| CustomerSearch.EmptyQueryMatchesAll | customers/views.py:19-22 | every customer would match the empty query anyway |
| CustomerSearch.LongerQueryNarrows | customers/views.py:19-22 | if one query contains another, its results are among the other's |
| OrderForms.CleanGuestCount | ordersapp/forms.py:39-43 | a missing count is 0; rejected iff negative; otherwise kept |
| OrderForms.CleanGuestCountIdempotent | ordersapp/forms.py:39-43 | an accepted count is accepted again unchanged |
| OrderForms.MergeClass | ordersapp/forms.py:36-37 | the class list ends in "form-control"; a blank list becomes exactly "form-control"; otherwise the existing classes, leading whitespace dropped, come first |
| OrderForms.Styled | ordersapp/forms.py:36-37 | only the class attribute changes, to the merged list |
| OrderForms.StyleFields | ordersapp/forms.py:31-37 | declared-widget fields are untouched, every other field is restyled, and no field is added or lost |
| OrderForms.StyleQuoteItemForm | ordersapp/forms.py:114-118 | with no declared widgets every field is restyled |
| OrderForms.EveryFieldStyled | ordersapp/forms.py:23-37 | when the declared widgets carry "form-control", every field's classes end in "form-control" after `__init__` |
| OrderForms.UnstyledFieldGetsFormControl | ordersapp/forms.py:36-37 | a field with no class gets exactly "form-control" |
| LoginMiddleware.Handle | core/middleware.py:19-23 | a request passes iff it is authenticated or its path is allow-listed; otherwise it is redirected to the login URL with the path as `next` |
| LoginMiddleware.ExtensionStaysAllowed | core/middleware.py:25-26 | extending an allowed path keeps it allowed |
| LoginMiddleware.PrefixExamples | core/middleware.py:12-26 | "/administrator" is allowed by plain prefix matching; "/static" and "/" are not; an anonymous "/orders/" is redirected with `next=/orders/` |

## Left out

- Rendering, templates, flash messages, redirects after a successful POST, and the CSV download of the expense report are left out. They are I/O.
- `timezone.now()` and `date.today()` are parameters (`today`).
- Timezone-aware bounds of the expense report are left out; only their presence matters to the filter.
- Concurrency is left out. The atomic `F()` increment of `payment_entry` and races between the recomputing hooks are not modelled; every request is one step.
- Database rounding to the declared decimal places, `max_digits` overflow, and `Decimal` NaN/Infinity are left out. Money is exact `real`.
- The `unique` constraints on `stock_code` and `order_number` are left out. `Inventory.CodeRepeatsAfterDeletion` shows the duplicate code the insert would then be refused for.
- The decimal constructor, `parse_date` and `strptime` are parameters; their internals are left out. `isdigit` and case folding are ASCII only.
- The `category` query parameter of the expense report is taken as already parsed (`Option<nat>`).
- OrderModels.DeleteOrder: a missing order, which the view answers with 404, is modelled as a no-op.
- The models' `__str__` methods other than the inventory item's are left out, as are `payment_entry_select`, `list_stock`, `edit_stock`, `delete_stock` and the expense CRUD views. They are plain display or form plumbing.
- `UnitOfMeasure` is left out. Every item `add_stock` creates gets the unit "Pieces" (`uom=uom`), and no modelled operation reads the unit.
- The management commands are left out. Only the sample supplier's data is used, as a worked example.
- Admin registrations, URL routing and declarative form `Meta` classes are left out, except the widget and field lists the `__init__` merge depends on.
- Delivery, recipes, stock movements and quote totals are left out. They are not implemented in this code.
- The inventory record keeps only the columns the modelled operations use. The views write `name`, `uom`, `quantity`, `qty_on_hand`, `qty_available` and `cost_per_uom`, which the model class does not declare; the record includes all of them except `uom` (see `UnitOfMeasure` above), and the mismatch itself is left out. The customer columns and the rent columns (`rent_price`, `rent_type`, `rent_condition`, `is_returned`) are left out, since no modelled operation reads or writes them.
- The customer search works on a record with a `cnic` column, which customers/views.py:21 filters on and `CustomerForm` lists, although customers/models.py does not declare it.
- Inventory.AddStock: a value the decimal column rejects is an error of the whole insert, not a field-level message.
