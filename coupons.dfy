/** The coupons page: the list of applied coupon ids, the case-insensitive
    search, the split into active and expired coupons, and the wiring of each
    card's click to the page's handlers. */
module CouponsPage {
  import opened Common
  import CouponCard

  datatype Coupon = Coupon(
    id: string,
    code: string,
    discount: int,
    description: string,
    validUntil: string,
    minPurchase: Option<int>,
    isExpired: bool)

  /** `handleApplyCoupon`: the id is appended, even when already present. */
  function ApplyCoupon(applied: seq<string>, id: string): (r: seq<string>)
    ensures |r| == |applied| + 1 && r[..|applied|] == applied && r[|applied|] == id
  {
    applied + [id]
  }

  /** `handleRemoveCoupon`: every occurrence of the id goes, the rest keep
      their order. */
  function RemoveCoupon(applied: seq<string>, id: string): (r: seq<string>)
    ensures id !in r
    ensures forall x :: x != id ==> (x in r <==> x in applied)
  {
    Filter(applied, (x: string) => x != id)
  }

  /** Removing a coupon right after applying one that was not applied
      restores the list. */
  lemma RemoveUndoesApply(applied: seq<string>, id: string)
    requires id !in applied
    ensures RemoveCoupon(ApplyCoupon(applied, id), id) == applied
  {
    var keep := (x: string) => x != id;
    FilterConcat(applied, [id], keep);
    FilterKeepsAll(applied, keep);
    assert Filter([id], keep) == [] by { assert [id][1..] == []; }
  }

  /** The search test: the code or the description contains the term, both
      lower-cased. */
  predicate Matches(c: Coupon, term: string)
  {
    Contains(Lower(c.code), Lower(term)) || Contains(Lower(c.description), Lower(term))
  }

  /** `filteredCoupons`. */
  function Search(coupons: seq<Coupon>, term: string): (r: seq<Coupon>)
    ensures forall c :: c in r <==> c in coupons && Matches(c, term)
  {
    Filter(coupons, (c: Coupon) => Matches(c, term))
  }

  /** The empty search keeps every coupon. */
  lemma EmptySearchKeepsAll(coupons: seq<Coupon>)
    ensures Search(coupons, "") == coupons
  {
    forall c: Coupon
      ensures Matches(c, "")
    {
      assert Lower("") == "";
      ContainsEmpty(Lower(c.code));
    }
    FilterKeepsAll(coupons, (c: Coupon) => Matches(c, ""));
  }

  function Active(filtered: seq<Coupon>): (r: seq<Coupon>)
    ensures forall c :: c in r <==> c in filtered && !c.isExpired
  {
    Filter(filtered, (c: Coupon) => !c.isExpired)
  }

  function Expired(filtered: seq<Coupon>): (r: seq<Coupon>)
    ensures forall c :: c in r <==> c in filtered && c.isExpired
  {
    Filter(filtered, (c: Coupon) => c.isExpired)
  }

  /** The active and expired lists split the search result: together they
      hold each found coupon exactly as often as the result does. */
  lemma ActiveExpiredPartition(filtered: seq<Coupon>)
    ensures multiset(Active(filtered)) + multiset(Expired(filtered)) == multiset(filtered)
    ensures forall c :: !(c in Active(filtered) && c in Expired(filtered))
  {
    FilterPartition(filtered, (c: Coupon) => !c.isExpired, (c: Coupon) => c.isExpired);
  }

  /** The page's state. */
  class Page {
    var appliedCoupons: seq<string>
    var searchTerm: string

    constructor()
      ensures appliedCoupons == [] && searchTerm == ""
    {
      appliedCoupons := [];
      searchTerm := "";
    }

    /** `isApplied` as the page passes it to each card. */
    predicate IsApplied(c: Coupon)
      reads this
    {
      c.id in appliedCoupons
    }

    method SetSearchTerm(term: string)
      modifies this
      ensures searchTerm == term && appliedCoupons == old(appliedCoupons)
    {
      searchTerm := term;
    }

    /** A click on the card of `c`: an active card fires the handler its
        button names; an expired card is rendered with handlers that do
        nothing, and does not fire them anyway. */
    method ClickCard(c: Coupon)
      modifies this
      ensures searchTerm == old(searchTerm)
      ensures c.isExpired ==> appliedCoupons == old(appliedCoupons)
      ensures !c.isExpired && c.id in old(appliedCoupons) ==> appliedCoupons == RemoveCoupon(old(appliedCoupons), c.id)
      ensures !c.isExpired && c.id !in old(appliedCoupons) ==> appliedCoupons == ApplyCoupon(old(appliedCoupons), c.id)
      ensures !c.isExpired ==> (IsApplied(c) <==> !old(IsApplied(c)))
    {
      var click := CouponCard.HandleClick(c.id in appliedCoupons, c.isExpired);
      if c.isExpired {
        // onApply and onRemove are `() => {}` for expired coupons
        return;
      }
      match click
      case RemoveCalled =>
        appliedCoupons := RemoveCoupon(appliedCoupons, c.id);
      case ApplyCalled =>
        appliedCoupons := ApplyCoupon(appliedCoupons, c.id);
      case NoCallback =>
    }
  }
}
