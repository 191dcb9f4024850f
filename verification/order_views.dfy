/** The checkout and payment views, over the state they share: the session
    (its cart and its `order_id` key), the orders table with the items of
    each order, and the catalogue's stock column.

    The card processor is not called: each payment submission is given the
    outcome the processor returned. The database's refusal to store a value
    in a PositiveIntegerField column (an order item's quantity, a product's
    stock) is the parameter `rejects`; the refused write raises. */
module OrderViews {
  import opened Wrappers
  import opened StoreModels
  import opened OrderModels
  import opened Carts

  /** The checkout form: whether is_valid() accepted it, and its fields. */
  datatype ShippingForm = ShippingForm(isValid: bool, shipping: Shipping)

  /** What the checkout view answers. `CheckoutCrashed` is the server error
      raised when an item row is refused after the order row was written. */
  datatype CheckoutResponse =
    | CartEmptyRedirect
    | FormPage
    | ToPayment(id: OrderId)
    | CheckoutCrashed(id: OrderId)

  /** The request made to the payment view: a page load or a form post
      carrying the card token (which may be missing). */
  datatype PaymentRequest = ShowPage | Submit(token: Option<string>)

  /** How the processor answered the charge. */
  datatype ChargeOutcome = Charged(chargeId: string) | CardError(userMessage: string) | OtherError

  /** The charge sent to the processor: the amount in cents, the currency,
      the order it is for (the description "Order #<id>") and the token. */
  datatype ChargeRequest = ChargeRequest(amount: Cents, currency: string, orderId: OrderId, source: Option<string>)

  /** What the payment view answers. */
  datatype PaymentResponse =
    | NoOrderRedirect
    | OrderNotFound
    | PaymentPage(id: OrderId)
    | PaymentSucceeded(id: OrderId)
    | PaymentFailedRedirect(id: OrderId)

  /** The item rows written for the given cart lines, in cart order. */
  function ItemsFor(lines: seq<CartLine>): (items: seq<OrderItem>)
    ensures |items| == |lines|
    ensures forall i :: 0 <= i < |lines| ==>
              items[i] == OrderItem(lines[i].product, lines[i].price, lines[i].quantity)
  {
    if lines == [] then [] else [OrderItem(lines[0].product, lines[0].price, lines[0].quantity)] + ItemsFor(lines[1..])
  }

  /** An order's items cost exactly what its cart was worth. */
  lemma {:induction false} ItemsCostCartTotal(lines: seq<CartLine>)
    ensures TotalCost(ItemsFor(lines)) == TotalPrice(lines)
  {
    if lines != [] {
      ItemsCostCartTotal(lines[1..]);
      assert ItemsFor(lines)[1..] == ItemsFor(lines[1..]);
    }
  }

  /** The index of the first line whose quantity the database refuses, or
      the number of lines when it refuses none. */
  function FirstRejected(lines: seq<CartLine>, rejects: int -> bool): (k: nat)
    ensures k <= |lines|
    ensures forall j :: 0 <= j < k ==> !rejects(lines[j].quantity)
    ensures k < |lines| ==> rejects(lines[k].quantity)
  {
    if lines == [] then 0
    else if rejects(lines[0].quantity) then 0
    else 1 + FirstRejected(lines[1..], rejects)
  }

  /** The outcome of the stock loop: the stock column afterwards and how
      many items were applied before a write was refused (all of them when
      none was). */
  datatype StockRun = StockRun(stock: map<ProductId, int>, applied: nat)

  /** `product.stock -= item.quantity; product.save()` for each item in
      turn. The loop stops at the first item whose product is missing or
      whose new stock the database refuses. */
  function DecrementStock(stock: map<ProductId, int>, items: seq<OrderItem>, rejects: int -> bool): (u: StockRun)
    ensures u.applied <= |items|
    ensures u.stock.Keys == stock.Keys
  {
    if items == [] then StockRun(stock, 0)
    else
      var p, q := items[0].product, items[0].quantity;
      if p !in stock || rejects(stock[p] - q) then StockRun(stock, 0)
      else
        var rest := DecrementStock(stock[p := stock[p] - q], items[1..], rejects);
        StockRun(rest.stock, rest.applied + 1)
  }

  /** The units of product p over the items. */
  function QuantityOf(items: seq<OrderItem>, p: ProductId): int
  {
    if items == [] then 0
    else (if items[0].product == p then items[0].quantity else 0) + QuantityOf(items[1..], p)
  }

  /** When every item was applied, each product's stock went down by exactly
      the units ordered of it. */
  lemma {:induction false} DecrementStockExact(stock: map<ProductId, int>, items: seq<OrderItem>,
                                               rejects: int -> bool, p: ProductId)
    requires DecrementStock(stock, items, rejects).applied == |items|
    requires p in stock
    ensures DecrementStock(stock, items, rejects).stock[p] == stock[p] - QuantityOf(items, p)
  {
    if items != [] {
      var r, q := items[0].product, items[0].quantity;
      DecrementStockExact(stock[r := stock[r] - q], items[1..], rejects, p);
    }
  }

  /** A product no item names keeps its stock, whether or not the loop ran
      to the end. */
  lemma {:induction false} DecrementStockUntouched(stock: map<ProductId, int>, items: seq<OrderItem>,
                                                   rejects: int -> bool, p: ProductId)
    requires p in stock
    requires forall i :: 0 <= i < |items| ==> items[i].product != p
    ensures DecrementStock(stock, items, rejects).stock[p] == stock[p]
  {
    if items != [] {
      var r, q := items[0].product, items[0].quantity;
      if r in stock && !rejects(stock[r] - q) {
        DecrementStockUntouched(stock[r := stock[r] - q], items[1..], rejects, p);
      }
    }
  }

  /** When the database refuses exactly the negative values, the loop never
      leaves a negative stock behind, even when it stops early. */
  lemma {:induction false} DecrementStockNeverNegative(stock: map<ProductId, int>, items: seq<OrderItem>,
                                                       rejects: int -> bool)
    requires forall v :: rejects(v) <==> v < 0
    requires forall p :: p in stock ==> stock[p] >= 0
    ensures forall p :: p in DecrementStock(stock, items, rejects).stock ==>
              DecrementStock(stock, items, rejects).stock[p] >= 0
  {
    if items != [] {
      var r, q := items[0].product, items[0].quantity;
      if r in stock && !rejects(stock[r] - q) {
        DecrementStockNeverNegative(stock[r := stock[r] - q], items[1..], rejects);
      }
    }
  }

  /** Whether or not the loop ran to the end, each product's stock went down
      by exactly its units over the items that were applied. */
  lemma {:induction false} DecrementStockPrefix(stock: map<ProductId, int>, items: seq<OrderItem>,
                                                rejects: int -> bool, p: ProductId)
    requires p in stock
    ensures var u := DecrementStock(stock, items, rejects);
            u.stock[p] == stock[p] - QuantityOf(items[..u.applied], p)
  {
    var u := DecrementStock(stock, items, rejects);
    if items == [] {
      assert items[..u.applied] == [];
    } else {
      var r, q := items[0].product, items[0].quantity;
      if r !in stock || rejects(stock[r] - q) {
        assert items[..u.applied] == [];
      } else {
        var s' := stock[r := stock[r] - q];
        var rest := DecrementStock(s', items[1..], rejects);
        DecrementStockPrefix(s', items[1..], rejects, p);
        assert items[..u.applied] == [items[0]] + items[1..][..rest.applied];
        assert items[..u.applied][1..] == items[1..][..rest.applied];
      }
    }
  }

  /** Over the items a checkout wrote for a whole cart, the units of each
      product are that product's cart quantity, so a later successful payment
      takes exactly the cart's quantities off the stock. */
  lemma {:induction false} ItemsQuantityMatchesCart(lines: seq<CartLine>, p: ProductId)
    requires Distinct(lines)
    ensures QuantityOf(ItemsFor(lines), p) == UnitsOf(Lookup(lines, p))
  {
    if lines != [] {
      ItemsQuantityMatchesCart(lines[1..], p);
      assert ItemsFor(lines)[1..] == ItemsFor(lines[1..]);
    }
  }

  /** The cart total splits at any line. */
  lemma {:induction false} TotalPriceSplit(lines: seq<CartLine>, k: nat)
    requires k <= |lines|
    ensures TotalPrice(lines) == TotalPrice(lines[..k]) + TotalPrice(lines[k..])
  {
    if k > 0 {
      TotalPriceSplit(lines[1..], k - 1);
      assert lines[..k][1..] == lines[1..][..k - 1];
      assert lines[k..] == lines[1..][k - 1..];
    } else {
      assert lines[..k] == [] && lines[k..] == lines;
    }
  }

  /** An order whose item loop stopped after k of its cart's lines keeps the
      whole cart total as total_amount, while its items cost only the lines
      written: the two differ by the total of the lines left unwritten. */
  lemma CrashedOrderCostsPrefix(id: OrderId, user: UserId, shipping: Shipping, lines: seq<CartLine>, k: nat)
    requires k <= |lines|
    ensures var o := NewOrder(id, user, shipping, TotalPrice(lines)).(items := ItemsFor(lines[..k]));
            && o.totalAmount == TotalPrice(lines)
            && o.GetTotalCost() == TotalPrice(lines) - TotalPrice(lines[k..])
  {
    ItemsCostCartTotal(lines[..k]);
    TotalPriceSplit(lines, k);
  }

  /** A cart of two units at 500 and one of -1 unit at 300 (cart_add lets
      a negative quantity in): under the SQLite constraint the second item
      row is refused, so the order is stored with total_amount 700 while its
      one written item costs 1000. */
  lemma CrashedOrderExample(id: OrderId, user: UserId, shipping: Shipping)
    ensures var lines := [CartLine(1, 2, 500), CartLine(2, -1, 300)];
            var k := FirstRejected(lines, v => v < 0);
            var o := NewOrder(id, user, shipping, TotalPrice(lines)).(items := ItemsFor(lines[..k]));
            && k == 1 && o.totalAmount == 700 && o.GetTotalCost() == 1000
  {
  }

  /** When the database refuses exactly the negative values, every item row
      a checkout writes has a quantity of zero or more. */
  lemma WrittenItemsNonNegative(lines: seq<CartLine>, rejects: int -> bool, i: int)
    requires forall v :: rejects(v) <==> v < 0
    requires 0 <= i < FirstRejected(lines, rejects)
    ensures ItemsFor(lines[..FirstRejected(lines, rejects)])[i].quantity >= 0
  {
    assert !rejects(lines[i].quantity);
  }

  /** get_object_or_404(Order, id=order_id, user=request.user): the order
      if it exists and belongs to the user. */
  function OwnedOrder(orders: map<OrderId, Order>, id: OrderId, user: UserId): (r: Option<Order>)
    ensures r.Some? <==> id in orders && orders[id].user == user
    ensures r.Some? ==> r.value == orders[id]
  {
    if id in orders && orders[id].user == user then Some(orders[id]) else None
  }

  /** order_history: the user's orders and no one else's. */
  function OrderHistory(orders: map<OrderId, Order>, user: UserId): (r: set<OrderId>)
    ensures forall id :: id in r ==> id in orders && orders[id].user == user
    ensures forall id :: id in orders && orders[id].user == user ==> id in r
  {
    set id | id in orders && orders[id].user == user
  }

  /** order_detail shows exactly the orders order_history lists. */
  lemma DetailMatchesHistory(orders: map<OrderId, Order>, user: UserId, id: OrderId)
    ensures OwnedOrder(orders, id, user).Some? <==> id in OrderHistory(orders, user)
  {
  }

  /** `if not order_id`: no key, or the falsy id 0. */
  predicate HasSessionOrder(session: Option<OrderId>)
  {
    session.Some? && session.value != 0
  }

  /** Every id a checkout stores in the session passes payment's
      `if not order_id` check, since the database numbers orders from 1;
      a missing key and the id 0 do not. */
  lemma IssuedIdsPassSessionCheck(id: OrderId)
    ensures id >= 1 ==> HasSessionOrder(Some(id))
    ensures !HasSessionOrder(None) && !HasSessionOrder(Some(0))
  {
  }

  /** Everything the two views can change, as one value. */
  datatype ShopState = ShopState(
    cart: seq<CartLine>, session: Option<OrderId>, orders: map<OrderId, Order>,
    stock: map<ProductId, int>, nextOrderId: OrderId)

  /** The orders table's keys are the ids already handed out, each row
      carries its own key, and each row keeps PaymentConsistent. */
  ghost predicate OrdersValid(orders: map<OrderId, Order>, nextOrderId: OrderId)
  {
    forall id :: id in orders ==> 1 <= id < nextOrderId && orders[id].id == id && PaymentConsistent(orders[id])
  }

  lemma OrdersValidStore(orders: map<OrderId, Order>, nextOrderId: OrderId, o: Order)
    requires OrdersValid(orders, nextOrderId)
    requires 1 <= o.id < nextOrderId && PaymentConsistent(o)
    ensures OrdersValid(orders[o.id := o], nextOrderId)
  {
  }

  lemma OrdersValidGrow(orders: map<OrderId, Order>, nextOrderId: OrderId, next': OrderId)
    requires OrdersValid(orders, nextOrderId) && nextOrderId <= next'
    ensures OrdersValid(orders, next')
  {
  }

  /** The shared state of one logged-in session against the store. */
  class Shop {
    /** The session's cart. */
    const cart: Cart
    /** The session's `order_id` key. */
    var sessionOrderId: Option<OrderId>
    /** The orders table, each order with its items. */
    var orders: map<OrderId, Order>
    /** The catalogue's stock column. */
    var stock: map<ProductId, int>
    /** The id the database gives the next order it stores. */
    var nextOrderId: OrderId

    ghost predicate Valid()
      reads this, cart
    {
      && cart.Valid()
      && nextOrderId >= 1
      && OrdersValid(orders, nextOrderId)
    }

    ghost function Snapshot(): ShopState
      reads this, cart
    {
      ShopState(cart.lines, sessionOrderId, orders, stock, nextOrderId)
    }

    constructor (stock: map<ProductId, int>)
      ensures Valid() && fresh(cart)
      ensures Snapshot() == ShopState([], None, map[], stock, 1)
    {
      cart := new Cart();
      sessionOrderId := None;
      orders := map[];
      this.stock := stock;
      nextOrderId := 1;
    }

    /** The item loop of checkout: one row per cart line, in cart order,
        until the database refuses a quantity. Returns how many rows were
        written. */
    method WriteItems(id: OrderId, lines: seq<CartLine>, rejects: int -> bool) returns (k: nat)
      requires id in orders
      modifies this`orders
      ensures k == FirstRejected(lines, rejects)
      ensures orders == old(orders)[id := old(orders)[id].(items := old(orders)[id].items + ItemsFor(lines[..k]))]
    {
      ghost var header := orders[id];
      k := 0;
      assert header.items + ItemsFor(lines[..0]) == header.items;
      assert old(orders)[id := header] == old(orders);
      while k < |lines|
        invariant 0 <= k <= |lines|
        invariant forall j :: 0 <= j < k ==> !rejects(lines[j].quantity)
        invariant orders == old(orders)[id := header.(items := header.items + ItemsFor(lines[..k]))]
      {
        var line := lines[k];
        if rejects(line.quantity) {
          return;
        }
        var item := OrderItem(line.product, line.price, line.quantity);
        assert ItemsFor(lines[..k + 1]) == ItemsFor(lines[..k]) + [item];
        assert header.items + ItemsFor(lines[..k + 1]) == header.items + ItemsFor(lines[..k]) + [item];
        orders := orders[id := orders[id].(items := orders[id].items + [item])];
        k := k + 1;
      }
    }

    /** checkout: an empty cart is refused; a valid form writes a pending
        order whose total is the cart total, then one item row per cart
        line, then puts the order's id in the session. Stock is not looked
        at. */
    method Checkout(user: UserId, form: Option<ShippingForm>, rejects: int -> bool)
      returns (r: CheckoutResponse)
      requires Valid()
      modifies this
      ensures Valid()
      ensures cart.lines == old(cart.lines) && stock == old(stock)
      ensures Count(cart.lines) == 0 ==> r == CartEmptyRedirect && Snapshot() == old(Snapshot())
      ensures Count(cart.lines) != 0 && (form.None? || !form.value.isValid) ==>
                r == FormPage && Snapshot() == old(Snapshot())
      ensures Count(cart.lines) != 0 && form.Some? && form.value.isValid ==>
                var id, k := old(nextOrderId), FirstRejected(cart.lines, rejects);
                var header := NewOrder(id, user, form.value.shipping, TotalPrice(cart.lines));
                && id !in old(orders)
                && nextOrderId == id + 1
                && orders == old(orders)[id := header.(items := ItemsFor(cart.lines[..k]))]
                && (k == |cart.lines| ==> r == ToPayment(id) && sessionOrderId == Some(id) && HasSessionOrder(sessionOrderId))
                && (k < |cart.lines| ==> r == CheckoutCrashed(id) && sessionOrderId == old(sessionOrderId))
    {
      if Count(cart.lines) == 0 {
        return CartEmptyRedirect;
      }
      if form.None? || !form.value.isValid {
        return FormPage;
      }
      var id := nextOrderId;
      var header := NewOrder(id, user, form.value.shipping, TotalPrice(cart.lines));
      OrdersValidGrow(orders, nextOrderId, nextOrderId + 1);
      nextOrderId := nextOrderId + 1;
      OrdersValidStore(orders, nextOrderId, header);
      orders := orders[id := header];
      var k := WriteItems(id, cart.lines, rejects);
      assert header.items + ItemsFor(cart.lines[..k]) == ItemsFor(cart.lines[..k]);
      OrdersValidStore(old(orders)[id := header], nextOrderId, header.(items := ItemsFor(cart.lines[..k])));
      if k < |cart.lines| {
        return CheckoutCrashed(id);
      }
      sessionOrderId := Some(id);
      r := ToPayment(id);
    }

    /** The stock loop of payment: `product.stock -= item.quantity` and a
        save for each item in turn, stopping at the first refused write.
        Returns how many items were applied. */
    method TakeStock(items: seq<OrderItem>, rejects: int -> bool) returns (applied: nat)
      modifies this`stock
      ensures stock == DecrementStock(old(stock), items, rejects).stock
      ensures applied == DecrementStock(old(stock), items, rejects).applied
    {
      var i := 0;
      while i < |items|
        invariant 0 <= i <= |items|
        invariant DecrementStock(old(stock), items, rejects) ==
                    var rest := DecrementStock(stock, items[i..], rejects); StockRun(rest.stock, rest.applied + i)
      {
        var p, q := items[i].product, items[i].quantity;
        assert items[i..][0] == items[i] && items[i..][1..] == items[i + 1..];
        if p !in stock || rejects(stock[p] - q) {
          return i;
        }
        stock := stock[p := stock[p] - q];
        i := i + 1;
      }
      applied := i;
    }

    /** payment: with an order in the session that belongs to the user, a
        submission charges the order's total. A successful charge marks the
        order paid and processing, takes each item's units off its product's
        stock, empties the cart and drops `order_id` from the session. A
        refused stock write after the charge, like a failed charge, ends in
        the generic handler: the payment is marked failed and the cart and
        the session are kept. Nothing stops an order that is already paid
        from being charged again. */
    method Payment(user: UserId, request: PaymentRequest, outcome: ChargeOutcome, rejects: int -> bool)
      returns (r: PaymentResponse, charge: Option<ChargeRequest>)
      requires Valid()
      modifies this, cart
      ensures Valid()
      ensures nextOrderId == old(nextOrderId)
      ensures !HasSessionOrder(old(sessionOrderId)) ==>
                r == NoOrderRedirect && charge == None && Snapshot() == old(Snapshot())
      ensures HasSessionOrder(old(sessionOrderId)) &&
              OwnedOrder(old(orders), old(sessionOrderId).value, user).None? ==>
                r == OrderNotFound && charge == None && Snapshot() == old(Snapshot())
      ensures HasSessionOrder(old(sessionOrderId)) &&
              OwnedOrder(old(orders), old(sessionOrderId).value, user).Some? && request.ShowPage? ==>
                r == PaymentPage(old(sessionOrderId).value) && charge == None && Snapshot() == old(Snapshot())
      ensures HasSessionOrder(old(sessionOrderId)) &&
              OwnedOrder(old(orders), old(sessionOrderId).value, user).Some? && request.Submit? ==>
                var id := old(sessionOrderId).value;
                var o := old(orders)[id];
                && charge == Some(ChargeRequest(o.totalAmount, "usd", id, request.token))
                && (!outcome.Charged? ==>
                      && r == PaymentFailedRedirect(id)
                      && orders == old(orders)[id := o.(paymentStatus := Failed)]
                      && stock == old(stock) && cart.lines == old(cart.lines)
                      && sessionOrderId == old(sessionOrderId))
                && (outcome.Charged? ==>
                      var paid := o.(paymentStatus := Completed, paymentId := Some(outcome.chargeId), status := Processing);
                      var run := DecrementStock(old(stock), o.items, rejects);
                      && stock == run.stock
                      && (run.applied == |o.items| ==>
                            && r == PaymentSucceeded(id)
                            && orders == old(orders)[id := paid]
                            && cart.lines == [] && sessionOrderId == None)
                      && (run.applied < |o.items| ==>
                            && r == PaymentFailedRedirect(id)
                            && orders == old(orders)[id := paid.(paymentStatus := Failed)]
                            && cart.lines == old(cart.lines) && sessionOrderId == old(sessionOrderId)))
    {
      charge := None;
      if !HasSessionOrder(sessionOrderId) {
        return NoOrderRedirect, charge;
      }
      var id := sessionOrderId.value;
      var found := OwnedOrder(orders, id, user);
      if found.None? {
        return OrderNotFound, charge;
      }
      var order := found.value;
      if request.ShowPage? {
        return PaymentPage(id), charge;
      }
      charge := Some(ChargeRequest(order.totalAmount, "usd", id, request.token));
      if !outcome.Charged? {
        OrdersValidStore(orders, nextOrderId, order.(paymentStatus := Failed));
        orders := orders[id := order.(paymentStatus := Failed)];
        return PaymentFailedRedirect(id), charge;
      }
      var paid := order.(paymentStatus := Completed, paymentId := Some(outcome.chargeId), status := Processing);
      OrdersValidStore(orders, nextOrderId, paid);
      orders := orders[id := paid];
      var applied := TakeStock(paid.items, rejects);
      if applied < |paid.items| {
        OrdersValidStore(old(orders), nextOrderId, paid.(paymentStatus := Failed));
        orders := orders[id := paid.(paymentStatus := Failed)];
        return PaymentFailedRedirect(id), charge;
      }
      cart.Clear();
      sessionOrderId := None;
      r := PaymentSucceeded(id);
    }
  }
}
