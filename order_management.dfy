/** The order table shared by the seller and admin pages: the status
    filter, the per-order counts, the status colours, the seller's
    customisation actions and the notes box that feeds them. */
module OrderManagement {
  import opened Common
  import opened Types

  /** The filter select: 'all' or one status. */
  datatype StatusFilter = All | Only(status: OrderStatus)

  /** `filteredOrders`. */
  function FilteredOrders(orders: seq<Order>, filter: StatusFilter): (r: seq<Order>)
    ensures filter.All? ==> r == orders
    ensures forall o :: o in r <==> o in orders && (filter.All? || o.status == filter.status)
  {
    if filter.All? then orders
    else
      var wanted := filter.status;
      Filter(orders, (o: Order) => o.status == wanted)
  }

  function CountWithStatus(orders: seq<Order>, s: OrderStatus): nat
  {
    |FilteredOrders(orders, Only(s))|
  }

  /** Every order shows under exactly one status filter: the six lists add
      up to the whole table. */
  lemma {:induction false} StatusFiltersCoverAll(orders: seq<Order>)
    ensures CountWithStatus(orders, Pending) + CountWithStatus(orders, Confirmed) + CountWithStatus(orders, Processing)
      + CountWithStatus(orders, Shipped) + CountWithStatus(orders, Delivered) + CountWithStatus(orders, Cancelled)
      == |orders|
  {
    if orders != [] {
      StatusFiltersCoverAll(orders[1..]);
      CountStep(orders, Pending);
      CountStep(orders, Confirmed);
      CountStep(orders, Processing);
      CountStep(orders, Shipped);
      CountStep(orders, Delivered);
      CountStep(orders, Cancelled);
    }
  }

  lemma CountStep(orders: seq<Order>, s: OrderStatus)
    requires orders != []
    ensures CountWithStatus(orders, s) == (if orders[0].status == s then 1 else 0) + CountWithStatus(orders[1..], s)
  {
  }

  /** `order.orderItems?.length || 0`. */
  function ItemCount(o: Order): (n: nat)
    ensures n == 0 <==> o.orderItems.None? || o.orderItems.value == []
  {
    if o.orderItems.Some? then |o.orderItems.value| else 0
  }

  /** `order.orderItems?.filter(item => item.customizationData).length || 0`;
      any customisation object, even an empty one, is truthy. */
  function CustomizedCount(o: Order): (n: nat)
    ensures n <= ItemCount(o)
  {
    if o.orderItems.Some? then |Filter(o.orderItems.value, IsCustomized)| else 0
  }

  predicate IsCustomized(item: OrderItem)
  {
    item.customizationData.Some?
  }

  /** An order counts zero customised items exactly when none of its items
      carries customisation data. */
  lemma CustomizedCountZeroIff(o: Order)
    requires o.orderItems.Some?
    ensures CustomizedCount(o) == 0 <==> forall j :: 0 <= j < |o.orderItems.value| ==> !IsCustomized(o.orderItems.value[j])
  {
    var items := o.orderItems.value;
    var customized := Filter(items, IsCustomized);
    if CustomizedCount(o) != 0 {
      assert customized[0] in items && IsCustomized(customized[0]);
    }
  }

  /** The status names the table compares against. */
  function StatusName(s: OrderStatus): string
  {
    match s
    case Pending => "pending" case Confirmed => "confirmed" case Processing => "processing"
    case Shipped => "shipped" case Delivered => "delivered" case Cancelled => "cancelled"
  }

  const Gray: string := "bg-gray-100 text-gray-800"

  /** `getStatusColor` over the status string. */
  function StatusColor(status: string): string
  {
    if status == "pending" then "bg-yellow-100 text-yellow-800"
    else if status == "confirmed" then "bg-blue-100 text-blue-800"
    else if status == "processing" then "bg-purple-100 text-purple-800"
    else if status == "shipped" then "bg-green-100 text-green-800"
    else if status == "delivered" then "bg-green-100 text-green-800"
    else if status == "cancelled" then "bg-red-100 text-red-800"
    else Gray
  }

  /** Each of the six statuses gets a colour other than gray. */
  lemma KnownStatusColored(s: OrderStatus)
    ensures StatusColor(StatusName(s)) != Gray
  {
    var c := StatusColor(StatusName(s));
    assert Gray[3] == 'g' && Gray[5] == 'a';
    match s
    case Pending => assert c[3] == 'y';
    case Confirmed => assert c[3] == 'b';
    case Processing => assert c[3] == 'p';
    case Shipped => assert c[5] == 'e';
    case Delivered => assert c[5] == 'e';
    case Cancelled => assert c[3] == 'r';
  }

  /** The six statuses get a colour of their own (shipped and delivered share
      green); any other string is gray. */
  lemma StatusColorMeaning(status: string)
    ensures StatusColor(status) == Gray <==> forall s: OrderStatus :: status != StatusName(s)
    ensures StatusColor(StatusName(Shipped)) == StatusColor(StatusName(Delivered))
  {
    if s: OrderStatus :| status == StatusName(s) {
      KnownStatusColored(s);
    } else {
      assert status != StatusName(Pending) && status != StatusName(Confirmed) && status != StatusName(Processing);
      assert status != StatusName(Shipped) && status != StatusName(Delivered) && status != StatusName(Cancelled);
    }
  }

  /** Who is looking at the table. */
  datatype Viewer = SellerView | AdminView

  /** The approve / start / complete buttons: drawn for a seller, on a
      pending item, inside the block that only renders for an item with
      customisation data. */
  predicate ShowsCustomizationActions(viewer: Viewer, item: OrderItem)
  {
    viewer == SellerView && IsCustomized(item) && item.customizationStatus == CustomizationPending
  }

  /** An admin never sees the actions, and a seller sees them only on items
      still pending: an item whose status has moved on shows none. The open
      order's modal renders a snapshot, though, so the buttons stay until the
      modal is reopened on a refreshed order (see `Table.selectedOrder`). */
  lemma ActionsOnlyForPendingSellerItems(viewer: Viewer, item: OrderItem, status: CustomizationStatus)
    requires status != CustomizationPending
    ensures ShowsCustomizationActions(viewer, item) ==> viewer == SellerView
    ensures item.customizationData.None? ==> !ShowsCustomizationActions(viewer, item)
    ensures !ShowsCustomizationActions(viewer, item.(customizationStatus := status))
  {
  }

  /** An order with no customised item shows no actions on any of its items. */
  lemma NoActionsInUncustomizedOrder(viewer: Viewer, o: Order)
    requires o.orderItems.Some? && CustomizedCount(o) == 0
    ensures forall j :: 0 <= j < |o.orderItems.value| ==> !ShowsCustomizationActions(viewer, o.orderItems.value[j])
  {
    CustomizedCountZeroIff(o);
  }

  /** The callback `handleCustomizationUpdate` fires. */
  datatype CustomizationUpdate = CustomizationUpdate(itemId: string, status: CustomizationStatus, notes: Option<string>)

  /** The table's own state. `selectedOrder` is the order whose details
      modal is open: a copy taken when its row was clicked, which nothing in
      the table refreshes. */
  class Table {
    var statusFilter: StatusFilter
    var customizationNotes: string
    var selectedOrder: Option<Order>

    constructor()
      ensures statusFilter == All && customizationNotes == "" && selectedOrder == None
    {
      statusFilter := All;
      customizationNotes := "";
      selectedOrder := None;
    }

    method SetFilter(f: StatusFilter)
      modifies this
      ensures statusFilter == f
      ensures customizationNotes == old(customizationNotes) && selectedOrder == old(selectedOrder)
    {
      statusFilter := f;
    }

    method TypeNotes(notes: string)
      modifies this
      ensures customizationNotes == notes
      ensures statusFilter == old(statusFilter) && selectedOrder == old(selectedOrder)
    {
      customizationNotes := notes;
    }

    /** A row's view button opens the modal on that order as it is now. */
    method OpenOrder(order: Order)
      modifies this
      ensures selectedOrder == Some(order)
      ensures statusFilter == old(statusFilter) && customizationNotes == old(customizationNotes)
    {
      selectedOrder := Some(order);
    }

    /** The modal's close button. */
    method CloseModal()
      modifies this
      ensures selectedOrder == None
      ensures statusFilter == old(statusFilter) && customizationNotes == old(customizationNotes)
    {
      selectedOrder := None;
    }

    /** `handleCustomizationUpdate`: the typed notes go out with the update,
        then the box is cleared. The open modal keeps its snapshot, so an
        item acted on still shows as pending, with its buttons. */
    method HandleCustomizationUpdate(itemId: string, status: CustomizationStatus) returns (call: CustomizationUpdate)
      modifies this
      ensures call == CustomizationUpdate(itemId, status, Some(old(customizationNotes)))
      ensures customizationNotes == "" && statusFilter == old(statusFilter)
      ensures selectedOrder == old(selectedOrder)
    {
      call := CustomizationUpdate(itemId, status, Some(customizationNotes));
      customizationNotes := "";
    }
  }
}
