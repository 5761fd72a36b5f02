/** The `map` updates the seller and admin order pages share: one order's
    status, and the items with a given id across all orders. */
module OrderTable {
  import opened Common
  import opened Types

  /** `orders.map(o => o.id === orderId ? {...o, status} : o)`. */
  function SetOrderStatus(orders: seq<Order>, orderId: string, status: OrderStatus): (r: seq<Order>)
    ensures |r| == |orders|
    ensures forall i :: 0 <= i < |orders| && orders[i].id == orderId ==> r[i] == orders[i].(status := status)
    ensures forall i :: 0 <= i < |orders| && orders[i].id != orderId ==> r[i] == orders[i]
  {
    if orders == [] then []
    else [if orders[0].id == orderId then orders[0].(status := status) else orders[0]]
         + SetOrderStatus(orders[1..], orderId, status)
  }

  /** Setting the same status twice is setting it once. */
  lemma SetOrderStatusIdempotent(orders: seq<Order>, orderId: string, status: OrderStatus)
    ensures SetOrderStatus(SetOrderStatus(orders, orderId, status), orderId, status) == SetOrderStatus(orders, orderId, status)
  {
  }

  /** `items.map(it => it.id === itemId ? change(it) : it)`. */
  function MapItems(items: seq<OrderItem>, itemId: string, change: OrderItem -> OrderItem): (r: seq<OrderItem>)
    ensures |r| == |items|
    ensures forall j :: 0 <= j < |items| && items[j].id == itemId ==> r[j] == change(items[j])
    ensures forall j :: 0 <= j < |items| && items[j].id != itemId ==> r[j] == items[j]
  {
    if items == [] then []
    else [if items[0].id == itemId then change(items[0]) else items[0]] + MapItems(items[1..], itemId, change)
  }
}
