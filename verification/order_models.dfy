/** Orders and their line items: the two status enumerations with their
    stored codes, the field defaults of a new order, and the cost rules. */
module OrderModels {
  import opened Wrappers
  import opened StoreModels

  type OrderId = int
  type UserId = int

  /** The order's fulfilment status. */
  datatype Status = Pending | Processing | Shipped | Delivered | Cancelled

  /** The order's payment status. */
  datatype PaymentStatus = PaymentPending | Completed | Failed | Refunded

  /** The code stored in the status column. */
  function StatusCode(s: Status): string
  {
    match s
    case Pending => "pending"
    case Processing => "processing"
    case Shipped => "shipped"
    case Delivered => "delivered"
    case Cancelled => "cancelled"
  }

  /** Reads a status column back; only the five choices are accepted. */
  function ParseStatus(code: string): (r: Option<Status>)
    ensures r.Some? ==> StatusCode(r.value) == code
  {
    if code == "pending" then Some(Pending)
    else if code == "processing" then Some(Processing)
    else if code == "shipped" then Some(Shipped)
    else if code == "delivered" then Some(Delivered)
    else if code == "cancelled" then Some(Cancelled)
    else None
  }

  lemma StatusCodeRoundTrip(s: Status)
    ensures ParseStatus(StatusCode(s)) == Some(s)
  {
  }

  /** The code stored in the payment_status column. */
  function PaymentStatusCode(s: PaymentStatus): string
  {
    match s
    case PaymentPending => "pending"
    case Completed => "completed"
    case Failed => "failed"
    case Refunded => "refunded"
  }

  /** Reads a payment_status column back; only the four choices are accepted. */
  function ParsePaymentStatus(code: string): (r: Option<PaymentStatus>)
    ensures r.Some? ==> PaymentStatusCode(r.value) == code
  {
    if code == "pending" then Some(PaymentPending)
    else if code == "completed" then Some(Completed)
    else if code == "failed" then Some(Failed)
    else if code == "refunded" then Some(Refunded)
    else None
  }

  lemma PaymentStatusCodeRoundTrip(s: PaymentStatus)
    ensures ParsePaymentStatus(PaymentStatusCode(s)) == Some(s)
  {
  }

  /** The shipping block the checkout form collects. */
  datatype Shipping = Shipping(
    firstName: string, lastName: string, email: string, phone: string,
    address: string, city: string, state: string, postalCode: string, country: string)

  /** One order line: the product, the unit price charged and the quantity. */
  datatype OrderItem = OrderItem(product: ProductId, price: Cents, quantity: int)
  {
    /** What this line costs. */
    function GetCost(): (c: Cents)
      ensures quantity == 0 ==> c == 0
      ensures quantity == 1 ==> c == price
      ensures price >= 0 && quantity >= 0 ==> c >= 0
    {
      price * quantity
    }
  }

  /** The sum of the item costs. */
  function TotalCost(items: seq<OrderItem>): (c: Cents)
    ensures items == [] ==> c == 0
    ensures (forall i :: 0 <= i < |items| ==> items[i].price >= 0 && items[i].quantity >= 0) ==> c >= 0
  {
    if items == [] then 0 else items[0].GetCost() + TotalCost(items[1..])
  }

  /** The total of a concatenation is the sum of the totals. */
  lemma {:induction false} TotalCostAppend(a: seq<OrderItem>, b: seq<OrderItem>)
    ensures TotalCost(a + b) == TotalCost(a) + TotalCost(b)
  {
    if a == [] {
      assert a + b == b;
    } else {
      assert (a + b)[0] == a[0] && (a + b)[1..] == a[1..] + b;
      TotalCostAppend(a[1..], b);
    }
  }

  /** An order row together with its items. */
  datatype Order = Order(
    id: OrderId, user: UserId, shipping: Shipping, totalAmount: Cents,
    status: Status, paymentStatus: PaymentStatus, paymentId: Option<string>,
    items: seq<OrderItem>)
  {
    /** The cost of the order recomputed from its items. */
    function GetTotalCost(): (c: Cents)
      ensures items == [] ==> c == 0
      ensures (forall i :: 0 <= i < |items| ==> items[i].price >= 0 && items[i].quantity >= 0) ==> c >= 0
    {
      TotalCost(items)
    }
  }

  /** The row a checkout writes: the given header and the column defaults. */
  function NewOrder(id: OrderId, user: UserId, shipping: Shipping, total: Cents): (o: Order)
    ensures o.id == id && o.user == user && o.shipping == shipping && o.totalAmount == total
    ensures o.status == Pending && o.paymentStatus == PaymentPending
    ensures o.paymentId == None && o.items == []
  {
    Order(id, user, shipping, total, Pending, PaymentPending, None, [])
  }

  /** The link the views keep between the two statuses and the charge id:
      a charge id is recorded exactly when the order was moved to
      processing, and a completed payment implies processing. */
  ghost predicate PaymentConsistent(o: Order)
  {
    && (o.paymentId.Some? <==> o.status == Processing)
    && (o.paymentStatus == Completed ==> o.status == Processing)
  }

  lemma NewOrderConsistent(id: OrderId, user: UserId, shipping: Shipping, total: Cents)
    ensures PaymentConsistent(NewOrder(id, user, shipping, total))
    ensures NewOrder(id, user, shipping, total).GetTotalCost() == 0
  {
  }
}
