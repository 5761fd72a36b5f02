/** The admin's orders page: its two handlers over the orders table. */
module AdminOrders {
  import opened Common
  import opened Types
  import opened OrderTable

  /** The items of one order after the update; notes are overwritten, also
      by a missing value. */
  function UpdatedItems(items: seq<OrderItem>, itemId: string, status: CustomizationStatus, notes: Option<string>): seq<OrderItem>
  {
    MapItems(items, itemId, (it: OrderItem) => it.(customizationStatus := status, customizationNotes := notes))
  }

  /** `o.orderItems || []`. */
  function ItemsOrEmpty(o: Order): seq<OrderItem>
  {
    if o.orderItems.Some? then o.orderItems.value else []
  }

  /** `handleUpdateCustomizationStatus`: every order gets an item list (empty
      when it had none), in which the items with the id are updated. */
  function UpdateCustomization(orders: seq<Order>, itemId: string, status: CustomizationStatus, notes: Option<string>)
    : (r: seq<Order>)
    ensures |r| == |orders|
    ensures forall i :: 0 <= i < |orders| ==>
      r[i] == orders[i].(orderItems := Some(UpdatedItems(ItemsOrEmpty(orders[i]), itemId, status, notes)))
  {
    if orders == [] then []
    else [orders[0].(orderItems := Some(UpdatedItems(ItemsOrEmpty(orders[0]), itemId, status, notes)))]
         + UpdateCustomization(orders[1..], itemId, status, notes)
  }

  /** An order without items comes out with an empty list; one with items
      keeps their number; nothing but the items changes. */
  lemma UpdateCustomizationShape(orders: seq<Order>, itemId: string, status: CustomizationStatus, notes: Option<string>, i: nat)
    requires i < |orders|
    ensures orders[i].orderItems.None? ==> UpdateCustomization(orders, itemId, status, notes)[i].orderItems == Some([])
    ensures orders[i].orderItems.Some? ==>
      |UpdateCustomization(orders, itemId, status, notes)[i].orderItems.value| == |orders[i].orderItems.value|
    ensures UpdateCustomization(orders, itemId, status, notes)[i].(orderItems := orders[i].orderItems) == orders[i]
  {
  }

  /** Item by item: a matching item takes the status and exactly the given
      notes, even none; every other item is as it was. */
  lemma UpdatedItemsMeaning(items: seq<OrderItem>, itemId: string, status: CustomizationStatus, notes: Option<string>)
    ensures |UpdatedItems(items, itemId, status, notes)| == |items|
    ensures forall j :: 0 <= j < |items| && items[j].id == itemId ==>
      UpdatedItems(items, itemId, status, notes)[j] == items[j].(customizationStatus := status, customizationNotes := notes)
    ensures forall j :: 0 <= j < |items| && items[j].id != itemId ==> UpdatedItems(items, itemId, status, notes)[j] == items[j]
  {
  }

  /** Repeating the update on a list of items changes nothing more. */
  lemma UpdatedItemsIdempotent(items: seq<OrderItem>, itemId: string, status: CustomizationStatus, notes: Option<string>)
    ensures UpdatedItems(UpdatedItems(items, itemId, status, notes), itemId, status, notes) == UpdatedItems(items, itemId, status, notes)
  {
    var once := UpdatedItems(items, itemId, status, notes);
    var twice := UpdatedItems(once, itemId, status, notes);
    assert |twice| == |once|;
    forall j | 0 <= j < |once|
      ensures twice[j] == once[j]
    {
      if items[j].id == itemId {
        assert once[j].id == itemId;
      }
    }
  }

  /** Repeating the update on the table changes nothing more. */
  lemma UpdateCustomizationIdempotent(orders: seq<Order>, itemId: string, status: CustomizationStatus, notes: Option<string>)
    ensures UpdateCustomization(UpdateCustomization(orders, itemId, status, notes), itemId, status, notes)
      == UpdateCustomization(orders, itemId, status, notes)
  {
    var once := UpdateCustomization(orders, itemId, status, notes);
    var twice := UpdateCustomization(once, itemId, status, notes);
    forall i | 0 <= i < |orders|
      ensures twice[i] == once[i]
    {
      UpdatedItemsIdempotent(ItemsOrEmpty(orders[i]), itemId, status, notes);
    }
  }

  class Page {
    var orders: seq<Order>

    constructor(initial: seq<Order>)
      ensures orders == initial
    {
      orders := initial;
    }

    /** `handleUpdateOrderStatus`. */
    method UpdateOrderStatus(orderId: string, status: OrderStatus)
      modifies this
      ensures orders == SetOrderStatus(old(orders), orderId, status)
    {
      orders := SetOrderStatus(orders, orderId, status);
    }

    /** `handleUpdateCustomizationStatus`. */
    method UpdateCustomizationStatus(itemId: string, status: CustomizationStatus, notes: Option<string>)
      modifies this
      ensures orders == UpdateCustomization(old(orders), itemId, status, notes)
    {
      orders := UpdateCustomization(orders, itemId, status, notes);
    }
  }
}
