/** The session cart: a dictionary from product to the quantity asked for and
    the unit price recorded when the product was added. A Python dictionary
    keeps insertion order, so the cart is a sequence of lines in which each
    product appears at most once; Lookup gives its dictionary view. */
module Carts {
  import opened Wrappers
  import opened StoreModels

  /** One cart entry. */
  datatype CartLine = CartLine(product: ProductId, quantity: int, price: Cents)
  {
    /** The line's share of the cart total. */
    function Cost(): Cents { price * quantity }
  }

  /** The products that have a line. */
  function Products(lines: seq<CartLine>): (ps: set<ProductId>)
    ensures forall i :: 0 <= i < |lines| ==> lines[i].product in ps
  {
    if lines == [] then {} else {lines[0].product} + Products(lines[1..])
  }

  /** No product has two lines (the cart's keys are unique). */
  ghost predicate Distinct(lines: seq<CartLine>)
  {
    lines == [] || (lines[0].product !in Products(lines[1..]) && Distinct(lines[1..]))
  }

  /** The line of product p, if the cart has one. */
  function Lookup(lines: seq<CartLine>, p: ProductId): (r: Option<CartLine>)
    ensures r.Some? <==> p in Products(lines)
    ensures r.Some? ==> r.value.product == p && r.value in lines
  {
    if lines == [] then None
    else if lines[0].product == p then Some(lines[0])
    else Lookup(lines[1..], p)
  }

  /** Stores `line` under its product: an existing line is overwritten where
      it stands, otherwise the line is appended. */
  function Put(lines: seq<CartLine>, line: CartLine): (r: seq<CartLine>)
    ensures Products(r) == Products(lines) + {line.product}
  {
    if lines == [] then [line]
    else if lines[0].product == line.product then [line] + lines[1..]
    else [lines[0]] + Put(lines[1..], line)
  }

  /** Deletes the line of product p; nothing happens when there is none. */
  function Without(lines: seq<CartLine>, p: ProductId): (r: seq<CartLine>)
    ensures Products(r) == Products(lines) - {p}
  {
    if lines == [] then []
    else if lines[0].product == p then Without(lines[1..], p)
    else [lines[0]] + Without(lines[1..], p)
  }

  /** len(cart): the number of units in the cart. */
  function Count(lines: seq<CartLine>): (n: int)
    ensures (forall i :: 0 <= i < |lines| ==> lines[i].quantity >= 0) ==> n >= 0
  {
    if lines == [] then 0 else lines[0].quantity + Count(lines[1..])
  }

  /** get_total_price(): the sum of price times quantity over the lines. */
  function TotalPrice(lines: seq<CartLine>): (t: Cents)
    ensures (forall i :: 0 <= i < |lines| ==> lines[i].price >= 0 && lines[i].quantity >= 0) ==> t >= 0
  {
    if lines == [] then 0 else lines[0].Cost() + TotalPrice(lines[1..])
  }

  /** Storing a line makes it the line of its product and leaves every other
      product's line as it was; the cart keeps one line per product. */
  lemma {:induction false} PutLookup(lines: seq<CartLine>, line: CartLine, q: ProductId)
    requires Distinct(lines)
    ensures Distinct(Put(lines, line))
    ensures Lookup(Put(lines, line), q) == if q == line.product then Some(line) else Lookup(lines, q)
  {
    if lines != [] && lines[0].product != line.product {
      PutLookup(lines[1..], line, q);
      assert Put(lines, line)[1..] == Put(lines[1..], line);
    }
  }

  /** Deleting a line removes exactly that product from the dictionary view. */
  lemma {:induction false} WithoutLookup(lines: seq<CartLine>, p: ProductId, q: ProductId)
    requires Distinct(lines)
    ensures Distinct(Without(lines, p))
    ensures Lookup(Without(lines, p), q) == if q == p then None else Lookup(lines, q)
  {
    if lines != [] {
      WithoutLookup(lines[1..], p, q);
      if lines[0].product != p {
        assert Without(lines, p)[1..] == Without(lines[1..], p);
      }
    }
  }

  /** The units and the total of a line that is present, or zero. */
  function UnitsOf(line: Option<CartLine>): int
  {
    if line.Some? then line.value.quantity else 0
  }

  function CostOf(line: Option<CartLine>): Cents
  {
    if line.Some? then line.value.Cost() else 0
  }

  /** Storing a line replaces the old line's units and cost in the cart's
      count and total by the new line's. */
  lemma {:induction false} PutTotals(lines: seq<CartLine>, line: CartLine)
    ensures Count(Put(lines, line)) == Count(lines) - UnitsOf(Lookup(lines, line.product)) + line.quantity
    ensures TotalPrice(Put(lines, line)) == TotalPrice(lines) - CostOf(Lookup(lines, line.product)) + line.Cost()
  {
    if lines == [] {
    } else if lines[0].product == line.product {
      assert Put(lines, line)[1..] == lines[1..];
    } else {
      PutTotals(lines[1..], line);
      assert Put(lines, line)[0] == lines[0];
      assert Put(lines, line)[1..] == Put(lines[1..], line);
    }
  }

  lemma {:induction false} WithoutAbsent(lines: seq<CartLine>, p: ProductId)
    requires p !in Products(lines)
    ensures Without(lines, p) == lines
  {
    if lines != [] {
      WithoutAbsent(lines[1..], p);
    }
  }

  /** Deleting a line takes its units and its cost out of the cart. */
  lemma {:induction false} WithoutTotals(lines: seq<CartLine>, p: ProductId)
    requires Distinct(lines)
    ensures Count(Without(lines, p)) == Count(lines) - UnitsOf(Lookup(lines, p))
    ensures TotalPrice(Without(lines, p)) == TotalPrice(lines) - CostOf(Lookup(lines, p))
  {
    if lines == [] {
    } else if lines[0].product == p {
      WithoutAbsent(lines[1..], p);
    } else {
      WithoutTotals(lines[1..], p);
      assert Without(lines, p)[0] == lines[0];
      assert Without(lines, p)[1..] == Without(lines[1..], p);
    }
  }

  /** When every line holds at least one unit, len(cart) is zero exactly for
      the cart without lines. */
  lemma {:induction false} CountZeroIffNoLines(lines: seq<CartLine>)
    requires forall i :: 0 <= i < |lines| ==> lines[i].quantity >= 1
    ensures Count(lines) >= |lines|
    ensures Count(lines) == 0 <==> lines == []
  {
    if lines != [] {
      CountZeroIffNoLines(lines[1..]);
    }
  }

  /** The line `add` stores: a new line for a product the cart lacks;
      otherwise whatever `merge` makes of the existing and the incoming line
      (replace or sum), under the same product. */
  function AddedLine(lines: seq<CartLine>, p: ProductId, quantity: int, price: Cents,
                     merge: (CartLine, CartLine) -> CartLine): (l: CartLine)
    ensures l.product == p
    ensures Lookup(lines, p).None? ==> l == CartLine(p, quantity, price)
    ensures Lookup(lines, p).Some? ==> l == merge(Lookup(lines, p).value, CartLine(p, quantity, price)).(product := p)
  {
    var incoming := CartLine(p, quantity, price);
    match Lookup(lines, p)
    case None => incoming
    case Some(existing) => merge(existing, incoming).(product := p)
  }

  /** What add does to the dictionary view: the added product's line is the
      incoming line when the product is new and the merge of the old and
      incoming line otherwise; every other product keeps its line, and the
      cart keeps one line per product. */
  lemma AddLookup(lines: seq<CartLine>, p: ProductId, quantity: int, price: Cents,
                  merge: (CartLine, CartLine) -> CartLine, q: ProductId)
    requires Distinct(lines)
    ensures Distinct(Put(lines, AddedLine(lines, p, quantity, price, merge)))
    ensures q != p ==> Lookup(Put(lines, AddedLine(lines, p, quantity, price, merge)), q) == Lookup(lines, q)
    ensures Lookup(Put(lines, AddedLine(lines, p, quantity, price, merge)), p) ==
              (match Lookup(lines, p)
               case None => Some(CartLine(p, quantity, price))
               case Some(existing) => Some(merge(existing, CartLine(p, quantity, price)).(product := p)))
  {
    PutLookup(lines, AddedLine(lines, p, quantity, price, merge), q);
    PutLookup(lines, AddedLine(lines, p, quantity, price, merge), p);
  }

  /** The session cart object. */
  class Cart {
    var lines: seq<CartLine>

    ghost predicate Valid()
      reads this
    {
      Distinct(lines)
    }

    /** A session without a cart starts with an empty one. */
    constructor ()
      ensures Valid() && lines == []
    {
      lines := [];
    }

    /** add(product, quantity): stores the product's line as `merge` decides. */
    method Add(p: ProductId, quantity: int, price: Cents, merge: (CartLine, CartLine) -> CartLine)
      requires Valid()
      modifies this
      ensures Valid()
      ensures lines == Put(old(lines), AddedLine(old(lines), p, quantity, price, merge))
    {
      var line := AddedLine(lines, p, quantity, price, merge);
      PutLookup(lines, line, p);
      lines := Put(lines, line);
    }

    /** update_quantity(product, quantity): overwrites the quantity of the
        product's line; a product without a line is left alone. */
    method UpdateQuantity(p: ProductId, quantity: int)
      requires Valid()
      modifies this
      ensures Valid()
      ensures Lookup(old(lines), p).None? ==> lines == old(lines)
      ensures Lookup(old(lines), p).Some? ==>
                lines == Put(old(lines), Lookup(old(lines), p).value.(quantity := quantity))
    {
      match Lookup(lines, p)
      case None =>
      case Some(line) =>
        PutLookup(lines, line.(quantity := quantity), p);
        lines := Put(lines, line.(quantity := quantity));
    }

    /** remove(product): deletes the product's line if there is one. */
    method Remove(p: ProductId)
      requires Valid()
      modifies this
      ensures Valid()
      ensures lines == Without(old(lines), p)
    {
      WithoutLookup(lines, p, p);
      lines := Without(lines, p);
    }

    /** clear(): deletes every line. */
    method Clear()
      modifies this
      ensures Valid() && lines == []
    {
      lines := [];
    }
  }
}
