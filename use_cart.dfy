/** The basic cart hook: entries are products with a quantity, found by the
    product's numeric id. */
module BasicCart {
  import opened Common

  /** The product fields the basic cart reads. */
  datatype CatalogProduct = CatalogProduct(id: int, name: string, price: int)

  /** `{...product, quantity}`. */
  datatype Entry = Entry(id: int, name: string, price: int, quantity: int)

  predicate HasId(items: seq<Entry>, id: int)
  {
    exists i :: 0 <= i < |items| && items[i].id == id
  }

  /** No two entries share an id. */
  predicate UniqueIds(items: seq<Entry>)
  {
    forall i, j :: 0 <= i < j < |items| ==> items[i].id != items[j].id
  }

  /** The `map` that adds `quantity` to every entry with the id. */
  function AddQuantity(items: seq<Entry>, id: int, quantity: int): (r: seq<Entry>)
    ensures |r| == |items|
    ensures forall i :: 0 <= i < |items| ==>
      r[i] == if items[i].id == id then items[i].(quantity := items[i].quantity + quantity) else items[i]
  {
    if items == [] then []
    else
      [if items[0].id == id then items[0].(quantity := items[0].quantity + quantity) else items[0]]
      + AddQuantity(items[1..], id, quantity)
  }

  /** The `map` that overwrites the quantity of every entry with the id. */
  function SetQuantity(items: seq<Entry>, id: int, quantity: int): (r: seq<Entry>)
    ensures |r| == |items|
    ensures forall i :: 0 <= i < |items| ==>
      r[i] == if items[i].id == id then items[i].(quantity := quantity) else items[i]
  {
    if items == [] then []
    else
      [if items[0].id == id then items[0].(quantity := quantity) else items[0]]
      + SetQuantity(items[1..], id, quantity)
  }

  /** `addToCart(product, quantity)`; the source's default quantity is 1.
      The cart grows by one entry exactly when the product was not in it
      (`AddExisting` and `AddFresh` say what the entries become). */
  function Add(items: seq<Entry>, product: CatalogProduct, quantity: int): (r: seq<Entry>)
    ensures |r| == |items| + (if HasId(items, product.id) then 0 else 1)
  {
    if HasId(items, product.id) then AddQuantity(items, product.id, quantity)
    else items + [Entry(product.id, product.name, product.price, quantity)]
  }

  /** `removeFromCart`. */
  function Remove(items: seq<Entry>, id: int): (r: seq<Entry>)
    ensures !HasId(r, id)
    ensures forall i :: 0 <= i < |r| ==> r[i] in items
    ensures forall i :: 0 <= i < |items| && items[i].id != id ==> items[i] in r
  {
    Filter(items, (e: Entry) => e.id != id)
  }

  /** `updateQuantity`: exactly zero removes, any other value is written. */
  function Update(items: seq<Entry>, id: int, quantity: int): (r: seq<Entry>)
    ensures quantity == 0 ==> !HasId(r, id)
    ensures quantity != 0 ==> |r| == |items| && forall i :: 0 <= i < |r| && r[i].id == id ==> r[i].quantity == quantity
  {
    if quantity == 0 then Remove(items, id) else SetQuantity(items, id, quantity)
  }

  function EntryQuantity(e: Entry): int
  {
    e.quantity
  }

  function EntryTotal(e: Entry): int
  {
    e.price * e.quantity
  }

  /** `getTotalItems`: an empty cart holds nothing, and entries of at least
      one unit each hold at least one item per entry. */
  function TotalItems(items: seq<Entry>): (n: int)
    ensures items == [] ==> n == 0
    ensures (forall i :: 0 <= i < |items| ==> items[i].quantity >= 1) ==> n >= |items|
  {
    SumBounds(items, EntryQuantity);
    Sum(items, EntryQuantity)
  }

  /** `getTotalPrice`, in cents: an empty cart costs nothing, and entries of
      non-negative cost never total below zero. */
  function TotalPrice(items: seq<Entry>): (p: int)
    ensures items == [] ==> p == 0
    ensures (forall i :: 0 <= i < |items| ==> EntryTotal(items[i]) >= 0) ==> p >= 0
  {
    SumBounds(items, EntryTotal);
    Sum(items, EntryTotal)
  }

  /** `getItemCount`: the quantity of the first entry with the id, or 0. */
  function ItemCount(items: seq<Entry>, id: int): (n: int)
    ensures !HasId(items, id) ==> n == 0
    ensures HasId(items, id) ==> exists i ::
      && 0 <= i < |items| && items[i].id == id && n == items[i].quantity
      && forall j :: 0 <= j < i ==> items[j].id != id
  {
    match FirstIndex(items, (e: Entry) => e.id == id)
    case None => 0
    case Some(i) => items[i].quantity
  }

  // ---------------------------------------------------------------------
  // Properties

  /** Adding a product already in the cart adds the quantity to its entry and
      keeps the length. */
  lemma AddExisting(items: seq<Entry>, product: CatalogProduct, quantity: int)
    requires HasId(items, product.id)
    ensures |Add(items, product, quantity)| == |items|
    ensures forall i :: 0 <= i < |items| && items[i].id == product.id ==>
      Add(items, product, quantity)[i].quantity == items[i].quantity + quantity
    ensures forall i :: 0 <= i < |items| && items[i].id != product.id ==> Add(items, product, quantity)[i] == items[i]
  {
  }

  /** Adding a new product appends one entry with the requested quantity. */
  lemma AddFresh(items: seq<Entry>, product: CatalogProduct, quantity: int)
    requires !HasId(items, product.id)
    ensures Add(items, product, quantity) == items + [Entry(product.id, product.name, product.price, quantity)]
  {
  }

  /** Ids stay unique across `addToCart`. */
  lemma AddKeepsIdsUnique(items: seq<Entry>, product: CatalogProduct, quantity: int)
    requires UniqueIds(items)
    ensures UniqueIds(Add(items, product, quantity))
  {
    var r := Add(items, product, quantity);
    if HasId(items, product.id) {
      assert forall i :: 0 <= i < |items| ==> r[i].id == items[i].id;
    } else {
      forall i, j | 0 <= i < j < |r|
        ensures r[i].id != r[j].id
      {
        assert r[i] == items[i];
        if j < |items| {
          assert r[j] == items[j];
        }
      }
    }
  }

  /** With unique ids, the count shown for a product grows by exactly the
      quantity added. */
  lemma AddRaisesItemCount(items: seq<Entry>, product: CatalogProduct, quantity: int)
    requires UniqueIds(items)
    ensures ItemCount(Add(items, product, quantity), product.id) == ItemCount(items, product.id) + quantity
  {
    var r := Add(items, product, quantity);
    AddKeepsIdsUnique(items, product, quantity);
    if HasId(items, product.id) {
      var i :| 0 <= i < |items| && items[i].id == product.id;
      assert r[i].id == product.id;
      UniqueCount(items, i);
      UniqueCount(r, i);
    } else {
      assert r[|items|].id == product.id;
      UniqueCount(r, |items|);
    }
  }

  /** With unique ids, the count for an id is the quantity of its entry. */
  lemma UniqueCount(items: seq<Entry>, i: nat)
    requires UniqueIds(items) && i < |items|
    ensures ItemCount(items, items[i].id) == items[i].quantity
  {
  }

  /** Removing an id no entry carries changes nothing. */
  lemma RemoveAbsent(items: seq<Entry>, id: int)
    requires !HasId(items, id)
    ensures Remove(items, id) == items
  {
    FilterKeepsAll(items, (e: Entry) => e.id != id);
  }

  /** A removed product counts zero. */
  lemma RemoveZeroesCount(items: seq<Entry>, id: int)
    ensures ItemCount(Remove(items, id), id) == 0
  {
  }

  /** `updateQuantity(id, 0)` is `removeFromCart(id)`; any other quantity,
      negative ones included, is written into the matching entries only. */
  lemma UpdateMeaning(items: seq<Entry>, id: int, quantity: int)
    ensures quantity == 0 ==> !HasId(Update(items, id, quantity), id)
    ensures quantity != 0 ==> |Update(items, id, quantity)| == |items|
    ensures quantity != 0 ==> forall i :: 0 <= i < |items| && items[i].id == id ==>
      Update(items, id, quantity)[i].quantity == quantity
    ensures quantity != 0 ==> forall i :: 0 <= i < |items| && items[i].id != id ==>
      Update(items, id, quantity)[i] == items[i]
  {
  }

  /** With unique ids, adding an existing product raises the item total by
      the quantity and the price total by price times quantity. */
  lemma AddExistingTotals(items: seq<Entry>, product: CatalogProduct, quantity: int, i: nat)
    requires UniqueIds(items) && i < |items| && items[i].id == product.id
    ensures TotalItems(Add(items, product, quantity)) == TotalItems(items) + quantity
    ensures TotalPrice(Add(items, product, quantity)) == TotalPrice(items) + items[i].price * quantity
  {
    var bumped := items[i].(quantity := items[i].quantity + quantity);
    var added := Add(items, product, quantity);
    AddIsUpdate(items, product, quantity, i);
    assert added == items[i := bumped];
    SumUpdate(items, i, bumped, EntryQuantity);
    assert TotalItems(added) == Sum(items[i := bumped], EntryQuantity);
    SumUpdate(items, i, bumped, EntryTotal);
    assert TotalPrice(added) == Sum(items[i := bumped], EntryTotal);
    Distribute(items[i].price, items[i].quantity, quantity);
  }

  lemma Distribute(p: int, q: int, k: int)
    ensures p * (q + k) == p * q + p * k
  {
  }

  /** With unique ids, adding an existing product rewrites its one entry. */
  lemma AddIsUpdate(items: seq<Entry>, product: CatalogProduct, quantity: int, i: nat)
    requires UniqueIds(items) && i < |items| && items[i].id == product.id
    ensures Add(items, product, quantity) == items[i := items[i].(quantity := items[i].quantity + quantity)]
  {
  }

  /** Adding a new product raises the totals by the new entry. */
  lemma AddFreshTotals(items: seq<Entry>, product: CatalogProduct, quantity: int)
    requires !HasId(items, product.id)
    ensures TotalItems(Add(items, product, quantity)) == TotalItems(items) + quantity
    ensures TotalPrice(Add(items, product, quantity)) == TotalPrice(items) + product.price * quantity
  {
    var e := Entry(product.id, product.name, product.price, quantity);
    SumConcat(items, [e], EntryQuantity);
    SumConcat(items, [e], EntryTotal);
  }

  // ---------------------------------------------------------------------
  // The hook's state

  class Cart {
    var items: seq<Entry>

    constructor()
      ensures items == []
    {
      items := [];
    }

    method AddToCart(product: CatalogProduct, quantity: int)
      modifies this
      ensures items == Add(old(items), product, quantity)
      ensures UniqueIds(old(items)) ==> UniqueIds(items)
    {
      if UniqueIds(items) {
        AddKeepsIdsUnique(items, product, quantity);
      }
      items := Add(items, product, quantity);
    }

    method RemoveFromCart(id: int)
      modifies this
      ensures items == Remove(old(items), id)
    {
      items := Remove(items, id);
    }

    method UpdateQuantity(id: int, quantity: int)
      modifies this
      ensures items == Update(old(items), id, quantity)
    {
      if quantity == 0 {
        RemoveFromCart(id);
        return;
      }
      items := SetQuantity(items, id, quantity);
    }

    method ClearCart()
      modifies this
      ensures items == []
    {
      items := [];
    }
  }
}
