/** The three cart views that change the cart: each looks the product up
    (a missing product is a 404 before anything changes), reads the requested
    quantity, checks it against the product's stock and then calls one cart
    operation. `stock` is the catalogue's stock column by product id. */
module CartViews {
  import opened Wrappers
  import opened StoreModels
  import opened Carts

  /** The `quantity` form field: absent, an integer, or text that int()
      refuses (a ValueError, answered as a server error). */
  datatype QuantityField = Absent | Number(n: int) | NotANumber

  /** What the view answers. */
  datatype CartResponse =
    | ProductNotFound
    | BadQuantity
    | NotEnoughStock
    | Added
    | Updated
    | Removed

  /** int(request.POST.get('quantity', 1)). */
  function ParseQuantity(field: QuantityField): Option<int>
  {
    match field
    case Absent => Some(1)
    case Number(n) => Some(n)
    case NotANumber => None
  }

  /** cart_add: a quantity above the stock is refused; any other quantity,
      zero and negative ones included, is handed to the cart's add. */
  method CartAdd(cart: Cart, stock: map<ProductId, int>, p: ProductId, field: QuantityField,
                 price: Cents, merge: (CartLine, CartLine) -> CartLine)
    returns (r: CartResponse)
    requires cart.Valid()
    modifies cart
    ensures cart.Valid()
    ensures p !in stock ==> r == ProductNotFound && cart.lines == old(cart.lines)
    ensures p in stock && field.NotANumber? ==> r == BadQuantity && cart.lines == old(cart.lines)
    ensures p in stock && ParseQuantity(field).Some? ==>
              var q := ParseQuantity(field).value;
              && (q > stock[p] ==> r == NotEnoughStock && cart.lines == old(cart.lines))
              && (q <= stock[p] ==>
                    r == Added && cart.lines == Put(old(cart.lines), AddedLine(old(cart.lines), p, q, price, merge)))
  {
    if p !in stock {
      return ProductNotFound;
    }
    var quantity := ParseQuantity(field);
    if quantity.None? {
      return BadQuantity;
    }
    if quantity.value > stock[p] {
      return NotEnoughStock;
    }
    cart.Add(p, quantity.value, price, merge);
    r := Added;
  }

  /** cart_remove: deletes the product's line; other lines are kept. */
  method CartRemove(cart: Cart, stock: map<ProductId, int>, p: ProductId) returns (r: CartResponse)
    requires cart.Valid()
    modifies cart
    ensures cart.Valid()
    ensures p !in stock ==> r == ProductNotFound && cart.lines == old(cart.lines)
    ensures p in stock ==> r == Removed && cart.lines == Without(old(cart.lines), p)
  {
    if p !in stock {
      return ProductNotFound;
    }
    cart.Remove(p);
    r := Removed;
  }

  /** cart_update: a quantity above the stock is refused, a positive one
      overwrites the line's quantity, and zero or less deletes the line. */
  method CartUpdate(cart: Cart, stock: map<ProductId, int>, p: ProductId, field: QuantityField)
    returns (r: CartResponse)
    requires cart.Valid()
    modifies cart
    ensures cart.Valid()
    ensures p !in stock ==> r == ProductNotFound && cart.lines == old(cart.lines)
    ensures p in stock && field.NotANumber? ==> r == BadQuantity && cart.lines == old(cart.lines)
    ensures p in stock && ParseQuantity(field).Some? ==>
              var q := ParseQuantity(field).value;
              && (q > stock[p] ==> r == NotEnoughStock && cart.lines == old(cart.lines))
              && (0 < q <= stock[p] ==>
                    r == Updated &&
                    cart.lines == (match Lookup(old(cart.lines), p)
                                   case None => old(cart.lines)
                                   case Some(line) => Put(old(cart.lines), line.(quantity := q))))
              && (q <= 0 && q <= stock[p] ==> r == Removed && cart.lines == Without(old(cart.lines), p))
  {
    if p !in stock {
      return ProductNotFound;
    }
    var quantity := ParseQuantity(field);
    if quantity.None? {
      return BadQuantity;
    }
    if quantity.value > stock[p] {
      return NotEnoughStock;
    }
    if quantity.value > 0 {
      cart.UpdateQuantity(p, quantity.value);
      r := Updated;
    } else {
      cart.Remove(p);
      r := Removed;
    }
  }

  /** Whatever the quantity, an update that goes through leaves the other
      products' lines as they were. */
  lemma UpdateKeepsOtherLines(lines: seq<CartLine>, p: ProductId, q: int, other: ProductId)
    requires Distinct(lines) && other != p
    ensures Lookup(Without(lines, p), other) == Lookup(lines, other)
    ensures Lookup(lines, p).Some? ==>
              Lookup(Put(lines, Lookup(lines, p).value.(quantity := q)), other) == Lookup(lines, other)
  {
    WithoutLookup(lines, p, other);
    if Lookup(lines, p).Some? {
      PutLookup(lines, Lookup(lines, p).value.(quantity := q), other);
    }
  }

  /** For an available product, is_in_stock() holds exactly when cart_add
      with no quantity field (so quantity 1) passes the stock check; an
      unavailable product is never in stock, whatever cart_add would allow. */
  lemma InStockIffDefaultAddPasses(p: Product)
    ensures p.IsInStock() <==> p.available && !(ParseQuantity(Absent).value > p.stock)
  {
  }
}
