# Order ledger of Ecom-BookBank, modelled in Dafny

The order app of this shop keeps one table of orders. Each order has a
billing profile, a cart, a shipping address and a billing address, all
nullable. It also has an order ID string, a status string, a shipping total,
a total and an `active` flag. Three pieces of logic work on this table:

- the manager method `new_or_get` returns the single open order for a
  (billing profile, cart) pair. An open order is one that is active and in
  status "created". When there is not exactly one, `new_or_get` deactivates
  the cart's active orders under other billing profiles and creates a new order;
- `update_total` sets an order's total to its cart's total plus its shipping
  total. Two `post_save` handlers call it: one when an order is created, one
  when a cart is updated and exactly one order references that cart;
- `check_done` and `mark_paid` check that an order is complete and mark it
  paid; the `pre_save` handler gives an order an ID the first time it is
  saved.

The model has three modules:

- `Orders` (orders.dfy) holds the order record as a datatype, its field
  defaults, `CheckDone` with its three results (`Done`, `NotDone`,
  `Suspicious`) and `PreSave`.
- `Queries` (queries.dfy) holds the querysets. They are filters over the
  table, which is a sequence in primary-key order. It also holds `count()`,
  `first()` (the lowest primary key) and the bulk `update(active=False)`,
  with lemmas about them.
- `OrderLedger` (ledger.dfy) holds the class `Ledger`. Its fields are the
  order table (`seq<Order>`) and the cart totals (`map<CartId, int>`). Every
  operation is a method with a `modifies` clause. The methods run the
  framework's hooks as explicit calls, in the order the framework fires
  them: `pre_save`, the write, then `post_save`. Each method states its
  whole new state. The four methods a client calls, `UpdateTotal`,
  `NewOrGet`, `SaveCart` and `MarkPaid`, also state that they keep two
  invariants: at most one open order per pair (`AtMostOneOpen`), and no
  order ID, once set, ever changes (`KeepsOrderIds`). The steps `Save`,
  `Create` and `Reissue` state only their new state; `Create` on its own
  does not keep `AtMostOneOpen`, since two creations for one pair give two
  open orders. The create branch of `new_or_get` is
  specified by the pure function `Reissued`, and the lemmas about it state
  which rows change and which do not.
  `CheckoutScenario` is a client of the class. It shows that a 40.00 cart
  gives a 49.99 order, and that asking again for the same pair returns the
  same order. It also shows that reusing the cart under another billing
  profile deactivates the first order and leaves its status alone.

Money is integer cents: the default shipping total 9.99 is `999`. The
generated order ID is a parameter of type `Slug`, a non-empty string.

### Behaviour of the code worth knowing

- For a negative total, `check_done` builds `ValidationError("Suspicious
  Activity")` (orders/models.py:70) and returns it without raising it; the
  line after the `return`, which would notify an administrator, is never
  reached. That object is
  truthy, so `mark_paid` marks such an order paid even when it has no
  addresses (`Ledger.MarkPaid`, ensures `old(orders[i].total) < 0 ==> status == Paid`).
- Order IDs come from `unique_slug_generator` (orders/models.py:3, 86),
  which is not part of this model, and the order code never checks them
  against other orders. So the model claims only that the ID is non-empty
  and never changes once set.
- The status is a free string column (orders/models.py:45). The four
  `ORDER_STATUS_CHOICES` (orders/models.py:11-16) are declared but never
  attached to the field.
- Asking `new_or_get` twice for the same pair returns the same order only
  when the pair has exactly one open order. If the pair already has two
  open orders, each call adds another one (`NewOrGet`'s count ensures).

## Model

| member | source | states |
|---|---|---|
| `Orders.NewRecord` | orders/models.py:40-48 | the record `create` builds carries the given profile and cart, no shipping or billing address, the default status "created", `active`, shipping 999 and total 0, and an empty ID; so it is open and not complete |
| `Orders.CheckDone` | orders/models.py:64-77 | a negative total gives `Suspicious`, which is truthy; with a non-negative total the result is truthy iff billing profile, shipping address and billing address are all set; a pure function, so nothing changes. `Truthy` is Python's truth test that `if self.check_done():` applies at line 77: `True` and the returned error object pass, `False` does not |
| `Orders.PreSave` | orders/models.py:84-86 | after `pre_save` the order ID is non-empty; an empty ID becomes the generated slug; a set ID leaves the record unchanged; no other field is touched |
| `Orders.PreSaveIdempotent` | orders/models.py:84-86 | a second save never reassigns the ID given by the first |
| `Queries.Matches` | orders/models.py:20-31 | a row is in a queryset only if its cart is the filter's cart; the open-order filter (lines 20-24) and the stale filter (line 31) also need `active`; the third filter (`cart__id`, line 97) ignores status and `active` |
| `Queries.FiltersOfNewOrGet` | orders/models.py:31 | an order open for the pair is never stale for it; `exclude(billing_profile=bp)` keeps rows with a NULL profile, so an active NULL-profile row of the cart is stale for any non-NULL profile; both querysets lie inside the cart's `cart__id` queryset |
| `Queries.Count` | orders/models.py:26 | `count()` is at most the number of rows |
| `Queries.First` | orders/models.py:27 | `first()` is a matching row and no earlier row matches |
| `Queries.Deactivate` | orders/models.py:33 | `update(active=False)` sets `active` to false on exactly the matching rows; every other row and every other field stays the same |
| `Queries.CountZero` | orders/models.py:32 | `exists()` is false exactly when no row matches |
| `Queries.CountTwo` | orders/models.py:26 | two distinct matching rows give a count of at least two |
| `Queries.CountOne` | orders/models.py:26-27 | when the count is one, `first()` is the only matching row |
| `Queries.CountExactlyOne` | orders/models.py:26 | one matching row and no other gives a count of one |
| `Queries.CountIsOne` | orders/models.py:26 | `count() == 1` holds exactly when one row matches and no other does, so `NewOrGet` creates exactly when the pair does not have exactly one open order |
| `Queries.CountAppend` | orders/models.py:34 | appending a row raises a count by one exactly when the row matches |
| `Queries.DeactivateNothing` | orders/models.py:32-33 | on an empty queryset the update changes nothing, so the `exists()` guard does not change the outcome |
| `Queries.StaleCleared` | orders/models.py:31-33 | after the update no active order of the cart has another billing profile |
| `Queries.StaleUpdateKeepsOpen` | orders/models.py:20-33 | deactivating stale orders leaves the pair's count of open orders the same |
| `OrderLedger.OpenIsUnique` | orders/models.py:20-28 | if at most one open order per pair exists, two open orders of one pair are the same row |
| `OrderLedger.AtMostOneOpenCount` | orders/models.py:20-26 | if at most one open order per pair exists, the open-order queryset of any pair counts at most one |
| `OrderLedger.RowUpdateKeepsAtMostOneOpen` | orders/models.py:76-80 | rewriting one row keeps at most one open order per pair, as long as the row is not newly opened or moved to another pair |
| `OrderLedger.ReissuedRows` | orders/models.py:29-35 | create branch: existing rows change only in `active`, and it flips exactly on the stale rows; rows of the same billing profile, duplicates included, are untouched; the appended row is open for the pair with shipping 999, the slug as ID and total cart + 999; afterwards every active order of the cart has the pair's profile |
| `OrderLedger.ReissuedCount` | orders/models.py:34-35 | the create branch adds exactly one open order for the pair |
| `OrderLedger.ReissuedKeepsAtMostOneOpen` | orders/models.py:26-35 | the create branch keeps at most one open order per pair |
| `OrderLedger.Ledger.Save` | orders/models.py:84-86 | a save of an existing row writes it after `pre_save`; `post_save` with created=false changes nothing |
| `OrderLedger.Ledger.UpdateTotal` | orders/models.py:55-62 | returns and stores cart total + shipping total, then saves; no other row or field changes; both invariants kept |
| `OrderLedger.Ledger.Create` | orders/models.py:105-109 | appends the default record with the slug as ID and total = cart total + 999; this is what `post_save_order` computes on creation |
| `OrderLedger.Ledger.Reissue` | orders/models.py:29-35 | the new table is `Reissued(old table)`: stale orders deactivated, then one new order appended |
| `OrderLedger.Ledger.NewOrGet` | orders/models.py:19-36 | created iff the pair does not have exactly one open order. Reuse: returns that order and leaves the table unchanged. Create: the table becomes `Reissued` and the returned order is the new one, with total cart + 999. Both branches keep both invariants, and under the first the returned order is the pair's only open order |
| `OrderLedger.Ledger.SaveCart` | orders/models.py:90-100 | the cart total is stored. On an update, and only if exactly one order references the cart, that order's total becomes the new cart total + its shipping total, whatever its status or active flag. In every other case the orders stay unchanged |
| `OrderLedger.Ledger.MarkPaid` | orders/models.py:76-80 | truthy `CheckDone`: status becomes "paid" whatever it was, and the order is saved. Otherwise nothing is written. Returns the resulting status; a negative total gives "paid" |

## Left out

- Persistence, querysets and transactions of the framework's ORM: the tables are an in-memory sequence (primary-key order) and a map of cart totals.
- The signal dispatcher: the handlers `pre_save_create_order_id`, `post_save_order` and `post_save_cart_total` are explicit calls inside `Save`, `Create` and `SaveCart`.
- `unique_slug_generator` (orders/utils) is not part of this model: its result is the `Slug` parameter, assumed non-empty, and no uniqueness is claimed.
- `fsum`, `format(..., '.2f')` and decimal columns: money is integer cents, so the sum is exact; the nine-digit limit of the decimal columns is not modelled.
- `print` calls and `__str__`.
- The `on_delete=SET_NULL` cascades, which belong to the external cart, billing-profile and address tables.
- Concurrent requests and their races.
- The schema migration orders/migrations/0004_auto_20200713_1353.py, which has no behaviour.
- `Ledger.UpdateTotal`: requires the order to reference an existing cart. The source dereferences `self.cart` and fails with an attribute error when it is null.
- `Ledger.NewOrGet`: takes a cart that exists, so it models neither outcome of a null `cart_obj`, for which the filters test `cart IS NULL` (orders/models.py:20-24, 31). If the profile has exactly one open order with a NULL cart, the source returns that order with created=false and does not fail (orders/models.py:26-28). Otherwise it deactivates the active NULL-cart orders of other profiles, inserts the new row, and then raises an attribute error in `update_total` at `self.cart.total` (orders/models.py:31-34, 57).
- `Ledger.MarkPaid`: reads the order as a stored decimal row. In the source, `update_total` leaves the string `format(..., '.2f')` in `self.total` (orders/models.py:59-60), and `new_or_get` returns that same instance after creating it (orders/models.py:34, 109). Calling `mark_paid` on it compares a string with 0 and raises a type error; the model does not capture that crash.
- `Orders.CheckDone`: takes the total as a number, as it is read back from the table; on an instance whose total `update_total` has just set to a string, the source's comparison at orders/models.py:69 raises a type error instead.
- Separate in-memory copies of one row: the model identifies the Python instance with its table row. So `update_total` inside `post_save_order` reads the cart total from the cart table rather than from the cart object passed in.
- The checkout views that set addresses on an order are not part of this model. The `Ledger` constructor takes the tables as they stand.
