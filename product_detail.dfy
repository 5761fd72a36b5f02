/** The product page: the required-option check in front of add-to-cart,
    the quantity stepper and the local list of reviews. */
module ProductDetail {
  import opened Common
  import opened Types
  import opened ProductCustomization

  /** What the add-to-cart button does. */
  datatype AddOutcome =
    | NoProduct
    | MissingOption(index: nat, message: string)
    | Added

  function MissingMessage(optionLabel: string): string
  {
    "Please complete required customization: " + optionLabel
  }

  /** Whether the product's options are checked at all: a customisable
      product with an options list (an empty list checks nothing). */
  predicate ChecksOptions(p: Product)
  {
    p.isCustomizable && p.customizationOptions.Some?
  }

  /** `handleAddToCart`: walk the required options in order and stop at the
      first one whose key holds a falsy value. */
  method HandleAddToCart(product: Option<Product>, data: Customization) returns (outcome: AddOutcome)
    ensures product.None? <==> outcome == NoProduct
    ensures outcome == Added <==>
      product.Some? && (!ChecksOptions(product.value) || RequiredFilled(product.value.customizationOptions.value, data))
    ensures outcome.MissingOption? ==>
      var options := product.value.customizationOptions.value;
      ChecksOptions(product.value)
      && outcome.index < |options|
      && options[outcome.index].required
      && !Truthy(Get(data, OptionKey(outcome.index)))
      && outcome.message == MissingMessage(options[outcome.index].labelText)
      && forall j :: 0 <= j < outcome.index && options[j].required ==> Truthy(Get(data, OptionKey(j)))
  {
    if product.None? {
      return NoProduct;
    }
    var p := product.value;
    if ChecksOptions(p) {
      var options := p.customizationOptions.value;
      var i := 0;
      while i < |options|
        invariant 0 <= i <= |options|
        invariant forall j :: 0 <= j < i && options[j].required ==> Truthy(Get(data, OptionKey(j)))
      {
        if options[i].required && !Truthy(Get(data, OptionKey(i))) {
          return MissingOption(i, MissingMessage(options[i].labelText));
        }
        i := i + 1;
      }
    }
    return Added;
  }

  /** The stepper's buttons. */
  function Decrement(q: int): (r: int)
    ensures r >= 1
    ensures q > 1 ==> r == q - 1
    ensures q <= 1 ==> r == 1
  {
    if q - 1 >= 1 then q - 1 else 1
  }

  function Increment(q: int): int
  {
    q + 1
  }

  /** From any valid quantity, '-' after '+' comes back to it. */
  lemma DecrementUndoesIncrement(q: int)
    requires q >= 1
    ensures Decrement(Increment(q)) == q
  {
  }

  /** A review as the page lists it. */
  datatype Review = Review(id: string, userName: string, rating: int, comment: string, date: string, images: seq<string>)

  /** The name shown on a new review: first and last name, trimmed, when a
      first name is set; else the email; else 'You'. */
  function ReviewerName(user: User): (name: string)
    ensures user.firstName == "" && user.email == "" ==> name == "You"
    ensures user.firstName == "" && user.email != "" ==> name == user.email
    ensures user.firstName != "" ==> name == Trim(user.firstName + " " + user.lastName)
    ensures user.firstName != "" && name != "" ==> !IsWhitespace(name[0]) && !IsWhitespace(name[|name| - 1])
  {
    if user.firstName != "" then Trim(user.firstName + " " + user.lastName)
    else if user.email != "" then user.email
    else "You"
  }

  /** Names without surrounding blanks are shown as "first last". */
  lemma ReviewerNameFullName(user: User)
    requires user.firstName != "" && !IsWhitespace(user.firstName[0])
    requires user.lastName != "" && !IsWhitespace(user.lastName[|user.lastName| - 1])
    ensures ReviewerName(user) == user.firstName + " " + user.lastName
  {
    var full := user.firstName + " " + user.lastName;
    assert full[0] == user.firstName[0];
    assert full[|full| - 1] == user.lastName[|user.lastName| - 1];
    TrimKeepsTrimmed(full);
  }

  /** With no last name, the joining space is trimmed away and the first name alone is shown. */
  lemma ReviewerNameFirstOnly(user: User)
    requires user.firstName != "" && !IsWhitespace(user.firstName[0])
    requires !IsWhitespace(user.firstName[|user.firstName| - 1])
    requires user.lastName == ""
    ensures ReviewerName(user) == user.firstName
  {
    assert user.firstName + " " + user.lastName == user.firstName + " ";
    TrimDropsTrailingSpace(user.firstName);
  }

  class Page {
    var quantity: int
    var customizationData: Customization
    var reviews: seq<Review>

    predicate Valid()
      reads this
    {
      quantity >= 1
    }

    constructor(initialReviews: seq<Review>)
      ensures Valid() && quantity == 1 && customizationData == [] && reviews == initialReviews
    {
      quantity := 1;
      customizationData := [];
      reviews := initialReviews;
    }

    /** `handleCustomizationChange`. */
    method SetCustomization(data: Customization)
      requires Valid()
      modifies this
      ensures Valid()
      ensures customizationData == data && quantity == old(quantity) && reviews == old(reviews)
    {
      customizationData := data;
    }

    method DecrementQuantity()
      requires Valid()
      modifies this
      ensures Valid()
      ensures quantity == Decrement(old(quantity))
      ensures customizationData == old(customizationData) && reviews == old(reviews)
    {
      quantity := Decrement(quantity);
    }

    method IncrementQuantity()
      requires Valid()
      modifies this
      ensures Valid()
      ensures quantity == old(quantity) + 1
      ensures customizationData == old(customizationData) && reviews == old(reviews)
    {
      quantity := Increment(quantity);
    }

    /** `handleSubmitReview`: without a user nothing is added; otherwise the
        new review goes first. The id and the date come from the clock. */
    method SubmitReview(user: Option<User>, rating: int, comment: string, id: string, date: string)
      returns (accepted: bool)
      requires Valid()
      modifies this
      ensures Valid()
      ensures accepted <==> user.Some?
      ensures !accepted ==> reviews == old(reviews)
      ensures accepted ==> reviews == [Review(id, ReviewerName(user.value), rating, comment, date, [])] + old(reviews)
      ensures quantity == old(quantity) && customizationData == old(customizationData)
    {
      if user.None? {
        return false;
      }
      reviews := [Review(id, ReviewerName(user.value), rating, comment, date, [])] + reviews;
      accepted := true;
    }
  }
}
