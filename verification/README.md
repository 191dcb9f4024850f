# Storefront order lifecycle in Dafny

This project models the order lifecycle of a small Django storefront. A
session cart becomes a pending order at checkout. A payment submission
then either marks the order paid, takes the ordered units off the stock,
empties the cart and drops `order_id` from the session, or marks the
payment failed. The model also covers the pricing and stock rules of
products, the cost rules of orders, and the stock guards of the cart views.

Modules, one per source file (plus `Carts`, the cart the views use):

- `StoreModels` (`store_models.dfy`): `Category` and `Product` classes.
  Their `Save` methods derive the slug only when it is empty. `Product`
  also has `GetPrice`, `GetDiscountPercentage` and `IsInStock`.
  `RoundHalfEven` is Python's `round()` on an exact rational.
- `OrderModels` (`order_models.dfy`): the status and payment-status
  enumerations with their stored codes, `OrderItem.GetCost`,
  `Order.GetTotalCost`, and the column defaults of a new order.
- `Carts` (`cart.dfy`): the cart as a `Cart` class. It holds its lines in
  insertion order, with one line per product, like the session dictionary.
  It has `Add`, `UpdateQuantity`, `Remove` and `Clear`.
- `CartViews` (`cart_views.dfy`): `cart_add`, `cart_update` and
  `cart_remove` over a `Cart` and the stock column.
- `OrderViews` (`order_views.dfy`): a `Shop` class holding the session
  cart, the session's `order_id`, the orders table (each order with its
  items) and the stock column. Its methods are `Checkout` and `Payment`.
  The order-history and order-detail lookups are functions.

Conventions:

- Money is in integer cents, so the charge amount `int(total_amount * 100)`
  is the order's total itself. The stored total has two decimal places.
- The card processor's answer is a parameter of `Payment`:
  `Charged(chargeId)`, `CardError(message)` or `OtherError`.
- `slugify` is an uninterpreted parameter.
- The cart's `add` rule for a product already in the cart is an
  uninterpreted parameter `merge`. It may replace or sum.
- `rejects` says whether the database refuses a value in a
  `PositiveIntegerField` column (an item's quantity, a product's stock).
  Such a write raises. The lemmas with `rejects(v) <==> v < 0` are the
  SQLite check constraint.

The model follows the code as written. In particular:

- Checkout does not re-check stock.
- Payment has no branch for transient errors.
- Payment does not refuse an order that is already paid; it charges it again.
- The stock decrement itself has no non-negativity check.
- If a stock write fails after a successful charge, the generic handler
  runs. The order is left `processing`, with payment status `failed`, and
  keeps its charge id.
- `cart_add` accepts zero and negative quantities.
- Checkout writes no transaction: when an item row is refused, the order
  row stays, with the whole cart total but only the items written before.

## Model

| member | source | states |
|---|---|---|
| `StoreModels.RoundHalfEven` | store/models.py:95-97 | the result is the nearest integer to n/d, within half of d, and a tie goes to the even neighbour |
| `StoreModels.RoundsToUnique` | store/models.py:97 | two integers that both round n/d half-to-even are equal |
| `StoreModels.RoundHalfEvenUnique` | store/models.py:97 | no other integer meets that characterisation, so it pins round() down exactly |
| `StoreModels.Category.constructor` | store/models.py:14-16 | a new category has the given name and a blank slug |
| `StoreModels.Category.Save` | store/models.py:26-30 | a non-empty slug is kept; an empty one becomes slugify(name) |
| `StoreModels.Product.constructor` | store/models.py:49-62 | defaults: blank slug, stock 0, available |
| `StoreModels.Product.Save` | store/models.py:74-78 | a non-empty slug is kept; an empty one becomes slugify(name) |
| `StoreModels.Product.GetPrice` | store/models.py:87-91 | a set, non-zero discounted price is what is charged; otherwise the list price is |
| `StoreModels.Product.GetDiscountPercentage` | store/models.py:93-98 | 0 unless a non-zero discount below the price is set; otherwise the correctly rounded value of (price - discounted) / price * 100; a division by a zero price (a negative discount) raises |
| `StoreModels.ZeroDiscountIgnored` | store/models.py:87-98 | a discounted price of exactly 0 is ignored: the list price applies and the percentage is 0 |
| `StoreModels.DiscountAboveListPriceStillCharged` | store/models.py:87-98 | a non-zero discounted price at or above the list price is still what is charged, while the percentage shown is 0 |
| `StoreModels.PercentageShownMeansDiscountedPrice` | store/models.py:87-98 | a non-zero percentage implies that the charged price is the discounted price and is below the list price |
| `StoreModels.TinyDiscountShownAsZero` | store/models.py:87-98 | a genuine discount of 99999 against 100000 is charged yet shown as 0% |
| `StoreModels.NegativeDiscountOnFreeProduct` | store/models.py:87-98 | a free product with a negative discounted price charges that price, and its percentage divides by zero |
| `StoreModels.DiscountPercentageInRange` | store/models.py:93-98 | for 0 < discounted < price the percentage exists and lies in 0..100 |
| `OrderModels.ParseStatus` | orders/models.py:15-21 | only the five status codes are read back, each to the status that stores it |
| `OrderModels.StatusCodeRoundTrip` | orders/models.py:15-21 | every status reads back from its stored code |
| `OrderModels.ParsePaymentStatus` | orders/models.py:23-28 | only the four payment-status codes are read back, each to the status that stores it |
| `OrderModels.PaymentStatusCodeRoundTrip` | orders/models.py:23-28 | every payment status reads back from its stored code |
| `OrderModels.OrderItem.GetCost` | orders/models.py:99-101 | quantity 0 costs nothing, quantity 1 costs the price, and non-negative inputs cost a non-negative amount |
| `OrderModels.TotalCost` | orders/models.py:74-76 | no items cost 0; items with non-negative prices and quantities cost a non-negative total |
| `OrderModels.TotalCostAppend` | orders/models.py:74-76 | the total over two runs of items is the sum of their totals |
| `OrderModels.Order.GetTotalCost` | orders/models.py:74-76 | an order without items costs 0; non-negative items give a non-negative cost |
| `OrderModels.NewOrder` | orders/models.py:49-59 | a new order is pending, its payment pending, with no charge id and no items |
| `OrderModels.NewOrderConsistent` | orders/models.py:49-59 | a new order meets the status/charge-id invariant and its items cost 0 |
| `Carts.PutLookup` | cart/views.py:45 | storing a line makes it the product's line, leaves the other products' lines alone and keeps one line per product |
| `Carts.WithoutLookup` | cart/views.py:57-58 | removing deletes exactly that product's line and keeps one line per product |
| `Carts.PutTotals` | cart/views.py:79-80 | storing a line changes the cart's unit count and total by the new line minus the old one |
| `Carts.WithoutTotals` | cart/views.py:82-83 | removing a line takes its units and its cost out of the cart's count and total |
| `Carts.CountZeroIffNoLines` | orders/views.py:26-28 | with at least one unit per line, len(cart) is 0 exactly for the cart without lines |
| `Carts.AddedLine` | cart/views.py:45 | add stores a line under the added product: the incoming line when the product is new, otherwise merge of the old and the incoming line, kept under the same product |
| `Carts.AddLookup` | cart/views.py:45 | after add, the product's line is the incoming line or the merge of the old and incoming line, every other product keeps its line, and there is still one line per product |
| `Carts.Count` | orders/views.py:26 | len(cart) is never negative when no line has a negative quantity |
| `Carts.TotalPrice` | orders/views.py:35 | get_total_price() is never negative when no line has a negative price or quantity |
| `Carts.Cart.constructor` | cart/views.py:35 | a new cart is empty |
| `Carts.Cart.Add` | cart/views.py:45 | the cart afterwards is the old cart with the added line stored |
| `Carts.Cart.UpdateQuantity` | cart/views.py:80 | the product's line takes the new quantity; a product without a line changes nothing |
| `Carts.Cart.Remove` | cart/views.py:58 | the cart afterwards is the old cart without the product's line |
| `Carts.Cart.Clear` | orders/views.py:100-102 | the cart afterwards is empty |
| `CartViews.InStockIffDefaultAddPasses` | store/models.py:100-102 | is_in_stock() holds exactly when the product is available and cart_add at the default quantity 1 passes its stock check |
| `CartViews.CartAdd` | cart/views.py:30-48 | unknown product gives 404 and a quantity above stock is refused, both leaving the cart unchanged; otherwise exactly one add happens, with no lower bound on the quantity |
| `CartViews.CartRemove` | cart/views.py:51-61 | unknown product gives 404; otherwise exactly that product's line is removed |
| `CartViews.CartUpdate` | cart/views.py:64-86 | above stock is refused with the cart unchanged; 0 < q <= stock sets the line's quantity; q <= 0 removes the line |
| `CartViews.UpdateKeepsOtherLines` | cart/views.py:79-83 | both update branches leave every other product's line unchanged |
| `OrderViews.ItemsFor` | orders/views.py:39-45 | one item per cart line, in cart order, copying the line's product, price and quantity |
| `OrderViews.ItemsCostCartTotal` | orders/views.py:35-45 | the items written for a cart cost exactly the cart total stored as total_amount |
| `OrderViews.FirstRejected` | orders/views.py:39-45 | the index of the first line whose quantity the database refuses; all earlier lines are accepted |
| `OrderViews.TotalPriceSplit` | orders/views.py:35 | the cart total is the sum of the totals of any prefix and the matching suffix |
| `OrderViews.CrashedOrderCostsPrefix` | orders/views.py:35-45 | an order whose item loop stopped after k lines stores the whole cart total while its items cost that total minus the unwritten lines |
| `OrderViews.CrashedOrderExample` | orders/views.py:35-45 | a cart of 2 at 500 and -1 at 300 leaves an order stored at 700 whose one item costs 1000 |
| `OrderViews.WrittenItemsNonNegative` | orders/views.py:39-45 | when negative values are refused, every written item has a quantity of 0 or more |
| `OrderViews.DecrementStock` | orders/views.py:95-98 | the stock loop keeps the catalogue's products and applies at most all items |
| `OrderViews.DecrementStockExact` | orders/views.py:95-98 | when every item is applied, each product's stock drops by exactly its ordered units |
| `OrderViews.DecrementStockPrefix` | orders/views.py:95-98 | whether or not the loop stops early, each product's stock drops by exactly its units over the items applied |
| `OrderViews.DecrementStockUntouched` | orders/views.py:95-98 | a product that no item names keeps its stock |
| `OrderViews.DecrementStockNeverNegative` | orders/views.py:95-98 | when negative values are refused, the loop never leaves a negative stock, even when it stops early |
| `OrderViews.ItemsQuantityMatchesCart` | orders/views.py:39-45 | a product's units over a whole order's items equal its cart quantity |
| `OrderViews.OwnedOrder` | orders/views.py:166-170 | the order is found exactly when it exists and belongs to the user |
| `OrderViews.OrderHistory` | orders/views.py:155 | exactly the user's own orders are listed |
| `OrderViews.DetailMatchesHistory` | orders/views.py:150-170 | an order's detail page is found exactly when the order is in the user's history |
| `OrderViews.IssuedIdsPassSessionCheck` | orders/views.py:69 | every id checkout stores (ids start at 1) passes payment's `if not order_id` check; a missing key and 0 fail it |
| `OrderViews.Shop.WriteItems` | orders/views.py:39-45 | writes one item row per cart line up to the first refused quantity and returns that index |
| `OrderViews.Shop.Checkout` | orders/views.py:19-59 | an empty cart or a GET or invalid form changes nothing. Otherwise a fresh pending order is written with total = cart total and one item per line, and the session's order_id becomes its id, which payment's session check accepts; a refused item write stops there and leaves the session alone. Cart and stock are never changed |
| `OrderViews.Shop.TakeStock` | orders/views.py:94-98 | the stock column afterwards and the count of applied items are the stock loop's |
| `OrderViews.Shop.Payment` | orders/views.py:62-128 | no order_id, or a foreign or missing order, or a GET changes nothing and charges nothing. A POST charges int(total * 100) cents in usd whatever the payment status. On success the order becomes completed/processing with the charge id, stock drops per item, the cart empties and order_id is dropped. On a charge error only payment_status becomes failed. On a refused stock write the order ends processing/failed with the charge id, keeping the cart and order_id. The status/charge-id invariant is kept |

## Left out

- The card processor call is not modelled. Its answer is a parameter, and the charge it would receive is returned.
- Rendering, redirects, flash messages, `login_required` and the form's widgets are not modelled. The form's `is_valid()` is a boolean beside the nine shipping fields.
- `payment_failed`, and `payment_success` apart from its owner lookup (the same `OwnedOrder`), only render.
- `cart_detail` is left out: it only writes a display-only form dictionary into each item it renders.
- `order_history`'s newest-first ordering and its prefetching are not modelled. `OrderHistory` is the owner-filtered set of order ids.
- cart/cart.py is not part of this model, so `Cart` assumes the following:
  - `len(cart)` is the sum of the quantities.
  - the total is the sum of price times quantity.
  - `update_quantity` on a product without a line does nothing.
  - iteration follows the order in which lines were added.
  - every line's product still exists when the cart is iterated.
  - the snapshot price `add` records is a parameter of `CartAdd`.
- Decimal arithmetic is exact here. Decimal's 28-digit context rounding in the discount division is not modelled. The `max_digits` limits of the money columns are not modelled either.
- Timestamps (`created_at`, `updated_at`) are not modelled. Neither are `OrderItem.quantity`'s default of 1 (checkout always passes the cart quantity) or the `featured`, `description` and `image` fields.
- Concurrency is not modelled: two sessions decrementing the same stock row, and several tabs of one session.
- The admin actions, catalogue browsing and search, accounts and settings are not modelled.
- Models and forms that need no logic are not modelled.
