/** The coupon card: which callback a click fires and which button it shows. */
module CouponCard {
  import opened Common

  /** The callback a click fires, if any. */
  datatype Click = NoCallback | RemoveCalled | ApplyCalled

  /** The `isExpired` prop, which defaults to false when not given. */
  function ExpiredProp(isExpired: Option<bool>): (expired: bool)
    ensures isExpired.None? ==> !expired
    ensures isExpired.Some? ==> expired == isExpired.value
  {
    if isExpired.Some? then isExpired.value else false
  }

  /** `handleClick`. */
  function HandleClick(isApplied: bool, isExpired: bool): Click
  {
    if isExpired then NoCallback
    else if isApplied then RemoveCalled
    else ApplyCalled
  }

  /** The action button: none on an expired card; otherwise labelled
      'Remove' or 'Apply'. */
  function ButtonLabel(isApplied: bool, isExpired: bool): (button: Option<string>)
    ensures button.None? <==> isExpired
    ensures button.Some? ==> (button.value == "Remove" <==> isApplied)
  {
    if isExpired then None else if isApplied then Some("Remove") else Some("Apply")
  }

  /** A click does what the card's button says: nothing where there is no
      button, onRemove under 'Remove', onApply under 'Apply'. */
  lemma ClickMatchesButton(isApplied: bool, isExpired: bool)
    ensures HandleClick(isApplied, isExpired) == NoCallback <==> ButtonLabel(isApplied, isExpired).None?
    ensures HandleClick(isApplied, isExpired) == RemoveCalled <==> ButtonLabel(isApplied, isExpired) == Some("Remove")
    ensures HandleClick(isApplied, isExpired) == ApplyCalled <==> ButtonLabel(isApplied, isExpired) == Some("Apply")
  {
    assert "Remove" != "Apply" by { assert "Remove"[0] != "Apply"[0]; }
  }

  /** Exactly one of the three outcomes, chosen by expiry first and then by
      whether the coupon is applied. */
  lemma ClickDecision(isApplied: bool, isExpired: bool)
    ensures isExpired ==> HandleClick(isApplied, isExpired) == NoCallback
    ensures !isExpired && isApplied ==> HandleClick(isApplied, isExpired) == RemoveCalled
    ensures !isExpired && !isApplied ==> HandleClick(isApplied, isExpired) == ApplyCalled
  {
  }
}
