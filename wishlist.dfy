/** The wishlist page: removing an entry and moving an entry to the cart. */
module Wishlist {
  import opened Common

  /** A wishlist entry; prices are in cents. */
  datatype Item = Item(id: string, name: string, price: int, originalPrice: Option<int>, image: string, inStock: bool)

  predicate Listed(items: seq<Item>, id: string)
  {
    exists i :: 0 <= i < |items| && items[i].id == id
  }

  /** `wishlist.filter(item => item.id !== id)`: every entry with the id
      goes, every other entry stays, in order. */
  function Without(items: seq<Item>, id: string): (r: seq<Item>)
    ensures !Listed(r, id)
    ensures forall i :: 0 <= i < |items| && items[i].id != id ==> items[i] in r
    ensures forall i :: 0 <= i < |r| ==> r[i] in items
    ensures Subsequence(r, items)
  {
    FilterIsSubsequence(items, (item: Item) => item.id != id);
    Filter(items, (item: Item) => item.id != id)
  }

  /** Removing an id no entry carries is a no-op. */
  lemma WithoutAbsent(items: seq<Item>, id: string)
    requires !Listed(items, id)
    ensures Without(items, id) == items
  {
    FilterKeepsAll(items, (item: Item) => item.id != id);
  }

  /** `wishlist.find(item => item.id === id)`. */
  function Find(items: seq<Item>, id: string): (found: Option<Item>)
    ensures found.None? <==> !Listed(items, id)
    ensures found.Some? ==> exists i ::
      && 0 <= i < |items| && found.value == items[i] && items[i].id == id
      && forall j :: 0 <= j < i ==> items[j].id != id
  {
    match FirstIndex(items, (item: Item) => item.id == id)
    case None => None
    case Some(i) => Some(items[i])
  }

  class Page {
    var wishlist: seq<Item>

    constructor(loaded: seq<Item>)
      ensures wishlist == loaded
    {
      wishlist := loaded;
    }

    /** `handleRemoveFromWishlist`. */
    method RemoveFromWishlist(id: string)
      modifies this
      ensures wishlist == Without(old(wishlist), id)
    {
      wishlist := Without(wishlist, id);
    }

    /** `handleMoveToCart`: an entry that is found is announced by name and
        removed; an absent id changes nothing. The cart itself is not
        touched by the source. */
    method MoveToCart(id: string) returns (moved: Option<string>)
      modifies this
      ensures moved.None? <==> !Listed(old(wishlist), id)
      ensures moved.None? ==> wishlist == old(wishlist)
      ensures moved.Some? ==> wishlist == Without(old(wishlist), id)
      ensures moved.Some? ==> exists i ::
        && 0 <= i < |old(wishlist)| && old(wishlist)[i].id == id && moved.value == old(wishlist)[i].name
        && forall j :: 0 <= j < i ==> old(wishlist)[j].id != id
    {
      var item := Find(wishlist, id);
      if item.None? {
        return None;
      }
      moved := Some(item.value.name);
      RemoveFromWishlist(id);
    }
  }
}
