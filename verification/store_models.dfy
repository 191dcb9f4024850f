/** The catalogue: categories and products, with the pricing and stock rules
    that the cart and the checkout rely on. Money is held in integer cents;
    `slugify` is a library function and is passed in uninterpreted. */
module StoreModels {
  import opened Wrappers

  type Cents = int
  type ProductId = int

  /** `r` is n/d rounded to the nearest integer, a tie going to the even
      neighbour (what Python's round() does to an exact quotient). */
  ghost predicate RoundsTo(n: int, d: int, r: int)
    requires d > 0
  {
    && -d <= 2 * (n - r * d) <= d
    && ((2 * (n - r * d) == d || 2 * (n - r * d) == -d) ==> r % 2 == 0)
  }

  /** Python's round() applied to the exact rational n/d. */
  function RoundHalfEven(n: int, d: int): (r: int)
    requires d > 0
    ensures RoundsTo(n, d, r)
  {
    var q, m := n / d, n % d;
    assert n - q * d == m;
    assert n - (q + 1) * d == m - d;
    if 2 * m < d then q
    else if 2 * m > d then q + 1
    else if q % 2 == 0 then q
    else q + 1
  }

  lemma MulMonotone(a: int, b: int, d: int)
    requires a <= b && d > 0
    ensures a * d <= b * d
  {
    assert b * d - a * d == (b - a) * d;
  }

  /** The four products k * d that uniqueness needs, proved once so that the
      rest of the argument stays linear. */
  lemma MulCases(k: int, d: int)
    requires d > 0
    ensures k >= 2 ==> k * d >= 2 * d
    ensures k <= -2 ==> k * d <= -2 * d
    ensures k == 1 ==> k * d == d
    ensures k == -1 ==> k * d == -d
  {
    if k >= 2 {
      MulMonotone(2, k, d);
    } else if k <= -2 {
      MulMonotone(k, -2, d);
    }
  }

  /** Two integers that both round n/d are equal: they lie within d of each
      other after scaling, and two neighbours cannot both win a tie. */
  lemma RoundsToUnique(n: int, d: int, r: int, r0: int)
    requires d > 0 && RoundsTo(n, d, r) && RoundsTo(n, d, r0)
    ensures r == r0
  {
    var e, e0, k := n - r * d, n - r0 * d, r0 - r;
    assert k * d == e - e0 by {
      assert r0 * d - r * d == (r0 - r) * d;
    }
    MulCases(k, d);
  }

  /** Rounding is a function: no other integer rounds n/d the same way. */
  lemma RoundHalfEvenUnique(n: int, d: int, r: int)
    requires d > 0 && RoundsTo(n, d, r)
    ensures r == RoundHalfEven(n, d)
  {
    RoundsToUnique(n, d, r, RoundHalfEven(n, d));
  }

  /** A category; only the slug rule of its save() is modelled. */
  class Category {
    var name: string
    var slug: string

    /** A new category has the blank slug the field allows. */
    constructor (name: string)
      ensures this.name == name && slug == ""
    {
      this.name := name;
      slug := "";
    }

    /** save() derives the slug from the name only when it is empty. */
    method Save(slugify: string -> string)
      modifies this`slug
      ensures old(slug) != "" ==> slug == old(slug)
      ensures old(slug) == "" ==> slug == slugify(name)
    {
      if slug == "" {
        slug := slugify(name);
      }
    }
  }

  /** A product as loaded from the catalogue. */
  class Product {
    var name: string
    var slug: string
    var price: Cents
    var discountedPrice: Option<Cents>
    var stock: int
    var available: bool

    /** Field defaults: a blank slug, no stock, available. */
    constructor (name: string, price: Cents, discountedPrice: Option<Cents>)
      ensures this.name == name && this.price == price && this.discountedPrice == discountedPrice
      ensures slug == "" && stock == 0 && available
    {
      this.name := name;
      this.price := price;
      this.discountedPrice := discountedPrice;
      slug := "";
      stock := 0;
      available := true;
    }

    /** save() derives the slug from the name only when it is empty. */
    method Save(slugify: string -> string)
      modifies this`slug
      ensures old(slug) != "" ==> slug == old(slug)
      ensures old(slug) == "" ==> slug == slugify(name)
    {
      if slug == "" {
        slug := slugify(name);
      }
    }

    /** The truthiness test on discounted_price: a missing value and a
        value of exactly zero both count as "no discount". */
    predicate HasDiscount()
      reads this
    {
      discountedPrice.Some? && discountedPrice.value != 0
    }

    /** The price a customer pays. */
    function GetPrice(): (r: Cents)
      reads this
      ensures HasDiscount() ==> r == discountedPrice.value
      ensures r != price ==> HasDiscount()
    {
      if HasDiscount() then discountedPrice.value else price
    }

    /** The discount as a whole percentage of the list price; None stands
        for the division by a zero list price, which raises. */
    function GetDiscountPercentage(): (r: Option<int>)
      reads this
      ensures !(HasDiscount() && discountedPrice.value < price) ==> r == Some(0)
      ensures r.None? <==> HasDiscount() && discountedPrice.value < price && price == 0
      ensures HasDiscount() && discountedPrice.value < price && price > 0 ==>
                r.Some? && RoundsTo((price - discountedPrice.value) * 100, price, r.value)
      ensures HasDiscount() && discountedPrice.value < price && price < 0 ==>
                r.Some? && RoundsTo(-(price - discountedPrice.value) * 100, -price, r.value)
    {
      if HasDiscount() && discountedPrice.value < price then
        var cut := (price - discountedPrice.value) * 100;
        if price > 0 then Some(RoundHalfEven(cut, price))
        else if price < 0 then Some(RoundHalfEven(-cut, -price))
        else None
      else
        Some(0)
    }

    /** In stock means a positive stock count on an available product. */
    predicate IsInStock()
      reads this
    {
      stock > 0 && available
    }
  }

  /** A discount of exactly zero is ignored by both pricing rules. */
  lemma ZeroDiscountIgnored(p: Product)
    requires p.discountedPrice == Some(0)
    ensures p.GetPrice() == p.price
    ensures p.GetDiscountPercentage() == Some(0)
  {
  }

  /** A "discount" at or above the list price is still what the customer
      pays, yet no percentage is shown for it. */
  lemma DiscountAboveListPriceStillCharged(p: Product)
    requires p.discountedPrice.Some? && p.discountedPrice.value != 0
    requires p.discountedPrice.value >= p.price
    ensures p.GetPrice() == p.discountedPrice.value >= p.price
    ensures p.GetDiscountPercentage() == Some(0)
  {
  }

  /** Whenever a non-zero percentage is shown, the customer pays the
      discounted price and it is below the list price. */
  lemma PercentageShownMeansDiscountedPrice(p: Product)
    requires p.GetDiscountPercentage().Some? && p.GetDiscountPercentage().value != 0
    ensures p.discountedPrice.Some? && p.GetPrice() == p.discountedPrice.value < p.price
  {
  }

  /** A genuine discount can still be shown as 0%: 99999 against a list
      price of 100000 takes 0.001% off, which rounds to 0, while the
      discounted price is charged. */
  lemma TinyDiscountShownAsZero(p: Product)
    requires p.price == 100000 && p.discountedPrice == Some(99999)
    ensures p.GetPrice() == 99999
    ensures p.GetDiscountPercentage() == Some(0)
  {
  }

  /** A free product with a negative discounted price charges that negative
      price, and asking for its percentage divides by zero. */
  lemma NegativeDiscountOnFreeProduct(p: Product)
    requires p.price == 0 && p.discountedPrice.Some? && p.discountedPrice.value < 0
    ensures p.GetPrice() == p.discountedPrice.value < 0
    ensures p.GetDiscountPercentage().None?
  {
  }

  /** For a genuine discount, 0 < discounted < price, the percentage is a
      whole number from 0 to 100. */
  lemma DiscountPercentageInRange(p: Product)
    requires p.discountedPrice.Some? && 0 < p.discountedPrice.value < p.price
    ensures p.GetDiscountPercentage().Some?
    ensures 0 <= p.GetDiscountPercentage().value <= 100
  {
    var price, cut := p.price, (p.price - p.discountedPrice.value) * 100;
    var r := p.GetDiscountPercentage().value;
    assert RoundsTo(cut, price, r);
    assert 0 < cut < 100 * price;
    if r <= -1 {
      MulMonotone(r, -1, price);
      assert false;
    }
    if r >= 101 {
      MulMonotone(101, r, price);
      assert false;
    }
  }
}
