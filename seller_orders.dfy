/** The seller's orders page: its two handlers over the orders table. */
module SellerOrders {
  import opened Common
  import opened Types
  import opened OrderTable

  /** `notes || item.customizationNotes`: new notes only when non-empty. */
  function KeptNotes(previous: Option<string>, notes: Option<string>): (r: Option<string>)
    ensures notes.Some? && notes.value != "" ==> r == notes
    ensures notes.None? || notes.value == "" ==> r == previous
  {
    if notes.Some? && notes.value != "" then notes else previous
  }

  /** The items of one order after the update. */
  function UpdatedItems(items: seq<OrderItem>, itemId: string, status: CustomizationStatus, notes: Option<string>): seq<OrderItem>
  {
    MapItems(items, itemId, (it: OrderItem) =>
      it.(customizationStatus := status, customizationNotes := KeptNotes(it.customizationNotes, notes)))
  }

  /** `handleUpdateCustomizationStatus`: every item with the id, in every
      order, takes the status and (non-empty) notes. `order.orderItems.map`
      throws on an order without items, so then the result is `None` and the
      update does not happen. */
  function UpdateCustomization(orders: seq<Order>, itemId: string, status: CustomizationStatus, notes: Option<string>)
    : (r: Option<seq<Order>>)
    ensures r.None? <==> exists i :: 0 <= i < |orders| && orders[i].orderItems.None?
    ensures r.Some? ==> |r.value| == |orders|
    ensures r.Some? ==> forall i :: 0 <= i < |orders| ==>
      orders[i].orderItems.Some? &&
      r.value[i] == orders[i].(orderItems := Some(UpdatedItems(orders[i].orderItems.value, itemId, status, notes)))
  {
    if orders == [] then Some([])
    else if orders[0].orderItems.None? then None
    else
      match UpdateCustomization(orders[1..], itemId, status, notes)
      case None => None
      case Some(rest) =>
        Some([orders[0].(orderItems := Some(UpdatedItems(orders[0].orderItems.value, itemId, status, notes)))] + rest)
  }

  /** Item by item: a matching item takes the status, and the notes unless
      they are empty or missing; every other item is as it was; each order
      keeps its number of items. */
  lemma UpdatedItemsMeaning(items: seq<OrderItem>, itemId: string, status: CustomizationStatus, notes: Option<string>)
    ensures |UpdatedItems(items, itemId, status, notes)| == |items|
    ensures forall j :: 0 <= j < |items| && items[j].id == itemId ==>
      UpdatedItems(items, itemId, status, notes)[j].customizationStatus == status &&
      UpdatedItems(items, itemId, status, notes)[j].customizationNotes == KeptNotes(items[j].customizationNotes, notes) &&
      UpdatedItems(items, itemId, status, notes)[j].id == items[j].id
    ensures forall j :: 0 <= j < |items| && items[j].id != itemId ==> UpdatedItems(items, itemId, status, notes)[j] == items[j]
  {
  }

  /** Repeating the update changes nothing more. */
  lemma {:induction false} UpdatedItemsIdempotent(items: seq<OrderItem>, itemId: string, status: CustomizationStatus, notes: Option<string>)
    ensures UpdatedItems(UpdatedItems(items, itemId, status, notes), itemId, status, notes) == UpdatedItems(items, itemId, status, notes)
  {
    var once := UpdatedItems(items, itemId, status, notes);
    var twice := UpdatedItems(once, itemId, status, notes);
    assert |twice| == |once|;
    forall j | 0 <= j < |once|
      ensures twice[j] == once[j]
    {
      if items[j].id == itemId {
        assert once[j].id == itemId;
      }
    }
  }

  /** Repeating an update that went through changes nothing more. */
  lemma UpdateCustomizationIdempotent(orders: seq<Order>, itemId: string, status: CustomizationStatus, notes: Option<string>)
    requires UpdateCustomization(orders, itemId, status, notes).Some?
    ensures UpdateCustomization(UpdateCustomization(orders, itemId, status, notes).value, itemId, status, notes)
      == UpdateCustomization(orders, itemId, status, notes)
  {
    var once := UpdateCustomization(orders, itemId, status, notes).value;
    var twice := UpdateCustomization(once, itemId, status, notes);
    assert twice.Some?;
    forall i | 0 <= i < |orders|
      ensures twice.value[i] == once[i]
    {
      UpdatedItemsIdempotent(orders[i].orderItems.value, itemId, status, notes);
    }
  }

  /** The page's table. */
  class Page {
    var orders: seq<Order>

    constructor(loaded: seq<Order>)
      ensures orders == loaded
    {
      orders := loaded;
    }

    /** `handleUpdateOrderStatus`. */
    method UpdateOrderStatus(orderId: string, status: OrderStatus)
      modifies this
      ensures orders == SetOrderStatus(old(orders), orderId, status)
    {
      orders := SetOrderStatus(orders, orderId, status);
    }

    /** `handleUpdateCustomizationStatus`; a throwing updater leaves the
        table as it was. */
    method UpdateCustomizationStatus(itemId: string, status: CustomizationStatus, notes: Option<string>)
      modifies this
      ensures UpdateCustomization(old(orders), itemId, status, notes).None? ==> orders == old(orders)
      ensures UpdateCustomization(old(orders), itemId, status, notes).Some? ==>
        orders == UpdateCustomization(old(orders), itemId, status, notes).value
    {
      var updated := UpdateCustomization(orders, itemId, status, notes);
      if updated.Some? {
        orders := updated.value;
      }
    }
  }
}
