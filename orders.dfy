/** The computational part of `createOrder`: the order total with its price
    fallback, and the mapping of cart items to order items. The inserts
    themselves are network calls and are not part of this model. */
module OrderAssembly {
  import opened Common

  /** A cart item of either cart's shape, as `createOrder` reads it: the
      enhanced cart has `productId` and `unitPrice`, the basic cart has `id`
      and `price`. An absent field is `None`. */
  datatype CheckoutItem = CheckoutItem(
    id: string,
    productId: Option<string>,
    linkedProductId: Option<string>,   // item.product?.id
    unitPrice: Option<int>,
    price: Option<int>,
    quantity: int)

  datatype OrderRow = OrderRow(id: string, userId: string, total: Option<int>, status: string)

  datatype OrderItemRow = OrderItemRow(id: string, orderId: string, productId: string, quantity: int, price: Option<int>)

  /** `typeof item.unitPrice === 'number' ? item.unitPrice : item.price`;
      `None` stands for `undefined`, whose product with a quantity is NaN. */
  function PriceOf(item: CheckoutItem): (p: Option<int>)
    ensures item.unitPrice.Some? ==> p == item.unitPrice
    ensures item.unitPrice.None? ==> p == item.price
  {
    if item.unitPrice.Some? then item.unitPrice else item.price
  }

  /** `price * quantity`, NaN when the price is missing. */
  function LineAmount(price: Option<int>, quantity: int): Option<int>
  {
    if price.Some? then Some(price.value * quantity) else None
  }

  /** A NaN-propagating sum: one missing amount makes the whole sum NaN. */
  function AddAmounts(a: Option<int>, b: Option<int>): Option<int>
  {
    if a.Some? && b.Some? then Some(a.value + b.value) else None
  }

  /** The `reduce` that computes the order total. */
  function OrderTotal(cart: seq<CheckoutItem>): Option<int>
  {
    if cart == [] then Some(0)
    else AddAmounts(LineAmount(PriceOf(cart[0]), cart[0].quantity), OrderTotal(cart[1..]))
  }

  /** `item.productId ?? item.product?.id ?? item.id`. */
  function ProductIdOf(item: CheckoutItem): (pid: string)
    ensures item.productId.Some? ==> pid == item.productId.value
    ensures item.productId.None? && item.linkedProductId.Some? ==> pid == item.linkedProductId.value
    ensures item.productId.None? && item.linkedProductId.None? ==> pid == item.id
  {
    match item.productId
    case Some(p) => p
    case None =>
      match item.linkedProductId
      case Some(p) => p
      case None => item.id
  }

  /** The `map` from cart items to order items; each new row id comes from
      the caller's supply of fresh identifiers. */
  function OrderItems(cart: seq<CheckoutItem>, orderId: string, itemIds: seq<string>): (rows: seq<OrderItemRow>)
    requires |itemIds| == |cart|
    ensures |rows| == |cart|
    ensures forall i :: 0 <= i < |cart| ==>
      rows[i] == OrderItemRow(itemIds[i], orderId, ProductIdOf(cart[i]), cart[i].quantity, PriceOf(cart[i]))
  {
    if cart == [] then []
    else [OrderItemRow(itemIds[0], orderId, ProductIdOf(cart[0]), cart[0].quantity, PriceOf(cart[0]))]
         + OrderItems(cart[1..], orderId, itemIds[1..])
  }

  /** The order row `createOrder` inserts. */
  function NewOrder(cart: seq<CheckoutItem>, orderId: string, userId: string): (o: OrderRow)
    ensures o.id == orderId && o.userId == userId && o.status == "pending"
    ensures o.total == OrderTotal(cart)
  {
    OrderRow(orderId, userId, OrderTotal(cart), "pending")
  }

  /** The sum of price times quantity over order items. */
  function ItemsTotal(rows: seq<OrderItemRow>): Option<int>
  {
    if rows == [] then Some(0)
    else AddAmounts(LineAmount(rows[0].price, rows[0].quantity), ItemsTotal(rows[1..]))
  }

  /** The order's total is the total of its items, NaN included. */
  lemma {:induction false} TotalMatchesItems(cart: seq<CheckoutItem>, orderId: string, itemIds: seq<string>)
    requires |itemIds| == |cart|
    ensures OrderTotal(cart) == ItemsTotal(OrderItems(cart, orderId, itemIds))
  {
    if cart != [] {
      TotalMatchesItems(cart[1..], orderId, itemIds[1..]);
      assert OrderItems(cart, orderId, itemIds)[1..] == OrderItems(cart[1..], orderId, itemIds[1..]);
    }
  }

  /** The total is a number exactly when every item has a price. */
  lemma {:induction false} TotalDefinedIff(cart: seq<CheckoutItem>)
    ensures OrderTotal(cart).Some? <==> forall i :: 0 <= i < |cart| ==> PriceOf(cart[i]).Some?
  {
    if cart != [] {
      TotalDefinedIff(cart[1..]);
      assert forall i :: 1 <= i < |cart| ==> cart[i] == cart[1..][i - 1];
    }
  }

  /** Price times quantity of an item whose price is known. */
  function PricedAmount(item: CheckoutItem): int
  {
    if PriceOf(item).Some? then PriceOf(item).value * item.quantity else 0
  }

  /** When every unit price is given, the total is the sum of unit price
      times quantity. */
  lemma {:induction false} TotalOfPricedCart(cart: seq<CheckoutItem>)
    requires forall i :: 0 <= i < |cart| ==> PriceOf(cart[i]).Some?
    ensures OrderTotal(cart) == Some(Sum(cart, PricedAmount))
  {
    if cart != [] {
      TotalOfPricedCart(cart[1..]);
    }
  }
}
