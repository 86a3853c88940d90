# Marketplace store: carts, product requests and the sales ledger

A Dafny model of the store logic in a Django marketplace's `shop_app`:

- the cart views (`add_item`, `update_quantity`, `delete_cartitem`, `product_in_cart`, `get_cart` / `get_card_stat`), which operate on the cart and cart-line tables;
- the slug rule of `Product.save`;
- the `ProductRequest` approval state machine (`approve`, `reject`) and its `calculate_platform_benefit` preview;
- `SalesSummary.update_sales_for_cart`, which folds a paid cart's lines into per-(product, vendor) running totals.

Money is fixed-point, as Django's `Decimal` fields are:

- prices and totals are integer cents;
- commission rates are integer hundredths of a percent (10.00 % is 1000);
- a commission is `amount * rate` rounded to the cent with ties to the even cent. This is what `Decimal.quantize(Decimal('0.01'))` does under the default context (ROUND_HALF_EVEN).

Files:

- `wrappers.dfy`: `Option` and `Result`.
- `money.dfy`: half-even rounding and the commission.
- `models.dfy`: the table rows, the slug rule, the approval state machine and the platform benefit, as functions and lemmas.
- `ledger.dfy`: the specification of the sales fold. It has a left fold of one step per cart line, with lemmas on what the fold adds, which rows exist, platform lines, re-folding, monotonicity and independence from line order.
- `shop.dfy`: class `Store`, which holds the tables as maps. Its methods perform the views and model methods, and each is proved against the functions above. `Valid()` is the store's invariant:
  - ids come from counters;
  - every cart line's cart and product exist;
  - a cart has at most one line per product;
  - every summary row belongs to a product and that product's vendor;
  - each approved product comes from a distinct approved request.

The model keeps these behaviours of the code, which a reader might expect otherwise:

- `add_item` reuses a paid cart and changes it: a paid cart is not protected from changes.
- `update_quantity` stores any integer, zero and negative included: there is no positivity check.
- `approve` and `reject` on a request that is no longer pending return `None` and `False` without raising.
- The sales fold has no exactly-once guard: a second run on the same cart counts it again (`Ledger.RefoldCountsTwice`).
- A negative line quantity lowers an existing summary row's totals (`Ledger.NegativeQuantityLowersTotals`): summaries are not monotone.
- `save` tries only one slug suffix, so slugs can collide (`Models.AssignSlug`).

## Model

| member | source | states |
|---|---|---|
| Money.RoundHalfEven | shop_app/models.py:152 | the result times the divisor is within half a divisor of the dividend, and an exact tie goes to the even result |
| Money.RoundHalfEvenUnique | shop_app/models.py:152 | any integer satisfying those two properties is the rounded value, so the contract determines the rounding |
| Money.CommissionRounds | shop_app/models.py:152 | the commission is `amount * rate / 100 %` to the nearest cent with ties to even; it is nonnegative for a nonnegative sale and rate, and at most the sale when the rate is at most 100 % |
| Money.CommissionExamples | shop_app/models.py:152 | 59.97 at 10.00 % gives 6.00; the half-cent ties 0.005 and 0.015 round to 0.00 and 0.02 |
| Models.AssignSlug | shop_app/models.py:23-33 | a set slug is kept; a blank slug becomes `slugify(name)` exactly when that is not yet stored, otherwise `slugify(name)-1`; the result is fresh exactly when one of these two candidates is free, so a collision is possible |
| Models.Decide | shop_app/models.py:96-121 | a non-pending request is unchanged; a pending one becomes approved or rejected; only status and notes change; a pending rejection with non-blank notes sets the notes to them, and in every other case the notes stay as they were |
| Models.TerminalAbsorbs | shop_app/models.py:96-121 | no sequence of approve/reject calls changes an approved or rejected request or creates a product from it |
| Models.AtMostOneProduct | shop_app/models.py:96-121 | whatever the sequence of calls, a request yields at most one product, and it yields one exactly when it started pending and ends approved |
| Models.PlatformBenefit | shop_app/models.py:123-125 | the benefit is price times rate over 100 % to the nearest cent, ties to even, and between 0 and the price for a nonnegative price and a rate of at most 100 % |
| Models.WriteKeepsUnique | shop_app/views.py:43-45 | writing the line of a (cart, product) pair that has no other line keeps lines unique, and leaves exactly that line for the pair |
| Ledger.GetStep | shop_app/models.py:147-168 | one line adds its quantity, sales and commission to the (product, vendor) row it belongs to and leaves every other row unchanged |
| Ledger.FoldAppend | shop_app/models.py:145 | folding two batches of lines in turn equals folding their concatenation |
| Ledger.FoldAdds | shop_app/models.py:142-168 | after the fold each row holds its old totals (zero if absent) plus the sum of the amounts of the lines booked under its key |
| Ledger.FoldKeys | shop_app/models.py:154-162 | a row exists after the fold exactly when it existed before or some line is booked under its key: rows are created on first use and never removed |
| Ledger.FoldSkipsPlatformLines | shop_app/models.py:147-148 | lines of products without a vendor contribute nothing: folding all lines equals folding the vendor lines alone |
| Ledger.RefoldCountsTwice | shop_app/models.py:142-168 | folding the same lines again adds every amount a second time |
| Ledger.FoldMonotone | shop_app/models.py:164-168 | with nonnegative line amounts no row's quantity, sales or commission decreases |
| Ledger.LinesOfNonNegative | shop_app/models.py:149-152 | a cart whose quantities, prices and rates are nonnegative gives lines with nonnegative quantity, sales and commission |
| Ledger.CartFoldMonotone | shop_app/models.py:142-168 | folding a cart whose quantities, prices and rates are nonnegative never lowers any row's quantity, sales or commission |
| Ledger.NegativeQuantityLowersTotals | shop_app/models.py:149-168 | a line of quantity -1 (a quantity `update_quantity` at shop_app/views.py:84-87 accepts) at 19.99 and 10.00 %, folded into an existing row of quantity at least 1, lowers that row by 1, 19.99 and 2.00 and leaves its quantity nonnegative |
| Ledger.SingleLineExample | shop_app/models.py:149-168 | a line of 3 at 19.99 from a vendor at 10.00 % adds 3, 59.97 and 6.00 to its row |
| Ledger.FoldKeepsVendors | shop_app/models.py:147-156 | every row the fold creates belongs to an existing product and that product's vendor |
| Ledger.FoldIndependentOfOrder | shop_app/models.py:145 | any two orders that list the same cart lines give the same summaries |
| Shop.Store.CreateProduct | shop_app/models.py:23-33 | keeps `Valid`; inserts the product under a fresh id with the slug `AssignSlug` picks against the stored slugs, and changes no other product |
| Shop.Store.Approve | shop_app/models.py:96-111 | keeps `Valid`; a product is created exactly when the request was pending; it carries the request's name, image, description, price, category, vendor and rate, gets its slug by the save rule, and is recorded as coming from this request; the request becomes `Decide(req, Approve)`; otherwise the products, the id counter and the origin record stay as they were and the request is unchanged |
| Shop.Store.Reject | shop_app/models.py:113-121 | keeps `Valid`; returns true exactly when the request was pending; the request becomes `Decide(req, Reject(notes))`; on false nothing changes |
| Shop.Store.ProductInCart | shop_app/views.py:52-62 | an error exactly when the cart or the product does not exist; otherwise true exactly when the cart has a line for the product |
| Shop.Store.OpenCart | shop_app/views.py:65-77 | found exactly when a cart with the code exists and is unpaid, and then it is that cart |
| Shop.Store.GetOrCreateCart | shop_app/views.py:40 | keeps `Valid`; an existing cart is kept as it is, paid or not; otherwise an unpaid cart without a user is created |
| Shop.Store.SetLine | shop_app/views.py:43-45 | keeps `Valid`; the cart's line for the product is reused or created under a fresh id and its quantity set to 1; afterwards exactly one line exists for the pair, and the id was already in use exactly when a line existed |
| Shop.Store.AddItem | shop_app/views.py:34-50 | keeps `Valid`; the cart is got or created first, and stays even when the product is unknown, which is an error that adds no line; otherwise exactly one line with quantity 1 exists for (cart, product), reused if it existed, and `ProductInCart` answers true; the answer is that line, or an error when the response cannot be built, with the line written all the same |
| Shop.Store.UpdateQuantity | shop_app/views.py:79-92 | keeps `Valid`; a non-integer quantity is an error, checked first; an unknown line is an error; otherwise only the line's quantity changes, to the given integer of any sign, and the answer is the line, or an error when the response cannot be built, with the quantity saved all the same; on the two earlier errors nothing changes |
| Shop.Store.DeleteCartItem | shop_app/views.py:95-100 | keeps `Valid`; succeeds exactly when the line exists; removes exactly that line, with carts untouched; afterwards the line's cart no longer holds its product |
| Shop.Store.BookLine | shop_app/models.py:146-168 | the summaries become `Step` of the line: a vendor line's (product, vendor) row is created from the line's amounts or increased by them, and a platform line changes nothing |
| Shop.Store.UpdateSalesForCart | shop_app/models.py:142-168 | keeps `Valid`; an unpaid cart changes nothing; a paid cart's summaries become the `Fold` of its lines, taken in the order the database returns them, whose properties are the `Ledger` lemmas above |

## Left out

- The payment settlement views (`initiate_payment`, `payment_callback` and the PayPal pair) and the admin statistics views: their code is not part of this model, and they call external payment gateways.
- `submit_product_request`, `get_vendor_sales` and the other administration views are not part of this model. The product-request model methods that those views would call are modelled.
- Django and DRF plumbing: `Response` objects, HTTP status codes, decorators, routing and serializers. An operation's outcome is a `Result`. An operation's error is the `Failure` that caused it: `NotFound` for a missing row, whether DRF answers 500 (`delete_cartitem`, `product_in_cart`) or the view catches it into a 400 (`add_item`, `update_quantity`); `NotAnInteger` for the quantity `int()` refuses; `ResponseFailed` when building the response fails after the write.
- Image fields, timestamps (`auto_now`, `auto_now_add`, `last_updated`) and `__str__` methods. An image is its stored name, a string.
- `slugify`: a library function, kept as an uninterpreted `string -> string` given to the store.
- Request parsing: the ids and codes arrive already parsed. The outcome of `int(quantity)` is an `Option<int>`, and a missing or malformed id is an unknown id.
- Field limits: `cart_code` max_length 11; the `slug` field's default max_length of 50, which a slugified 100-character name can exceed; the 32-bit range of the `IntegerField` `CartItem.quantity`, which the database may enforce when a huge `int(quantity)` is saved, and then `update_quantity` answers 400; the `max_digits` of the decimal fields; and the database's refusal of a negative `total_quantity` in the `PositiveIntegerField`. Quantities and amounts are unbounded integers.
- Money.Commission: models `Decimal` arithmetic as exact. The 28-digit default context never rounds the intermediate product and quotient for prices within their 10 digits, quantities within the 32-bit `IntegerField` range and rates within their 5 digits: the product has at most 25 digits.
- Database transactions, concurrency and the atomicity of `get_or_create`: every operation runs alone on the store.
- The migrations and the `is_seller` role helper in `core`: schema history and a one-line predicate that none of the modelled code uses.
- The read-only views `products`, `product_detail`, `get_username` and `user_info`: plain reads with no logic.
- Response serialisation: whether `CartItemSerializer` builds its response is a parameter `rendered` of `AddItem` and `UpdateQuantity`. The repository's `shop_app/serializers.py` names the cart field `Cart_code` (line 22), which Cart lacks, so with it the serialiser would always fail. That file is visibly incomplete: `shop_app/views.py` imports `SimpleCartSerializer` and `UserSerializer` from it, and it defines neither.
- OpenCart: models only the lookup of `get_cart` and `get_card_stat`, not their serialisation of the cart found. With that `serializers.py`, `get_cart` would answer 500 on every cart it finds.
- Payment: no modelled operation sets `Cart.paid`; the payment views that do are not part of this model. A paid cart, which the paid branch of `UpdateSalesForCart` and the unpaid filter of `OpenCart` distinguish, arises only from a store state in which `carts` already holds one.
- Cascading deletes: no modelled operation deletes a product, cart or user.
