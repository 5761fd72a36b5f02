/** The enhanced cart hook: cart lines identified by product, variant and the
    serialised customisation, with totals, grouping by seller, and validation
    of required customisation options. */
module EnhancedCart {
  import opened Common
  import opened Types
  import opened ProductCustomization

  datatype CartLine = CartLine(
    id: string,
    userId: string,
    productId: string,
    variantId: Option<string>,
    quantity: int,
    customizationData: Option<Customization>,
    unitPrice: int,
    createdAt: string,
    updatedAt: string,
    product: Option<Product>,
    variant: Option<ProductVariant>)

  // ---------------------------------------------------------------------
  // Line identity

  /** What `JSON.stringify` keeps of a stored value: a `File` object has no
      own enumerable properties and serialises to `{}`, so an upload is known
      by its preview and name only. */
  datatype SerialValue = SerialText(text: string) | SerialUpload(preview: string, name: string)

  function SerialOf(v: CustomValue): SerialValue
  {
    match v
    case Text(s) => SerialText(s)
    case Upload(_, preview, name) => SerialUpload(preview, name)
  }

  function SerialEntries(c: Customization): (r: seq<(string, SerialValue)>)
    ensures |r| == |c|
    ensures forall i :: 0 <= i < |c| ==> r[i] == (c[i].0, SerialOf(c[i].1))
  {
    if c == [] then [] else [(c[0].0, SerialOf(c[0].1))] + SerialEntries(c[1..])
  }

  /** `JSON.stringify(customizationData)`, up to the text encoding: undefined
      for absent data, otherwise the entries in insertion order. */
  function Serialize(c: Option<Customization>): Option<seq<(string, SerialValue)>>
  {
    match c
    case None => None
    case Some(entries) => Some(SerialEntries(entries))
  }

  /** The triple a line is recognised by when the same product is added again. */
  datatype Identity = Identity(productId: string, variantId: Option<string>, data: Option<seq<(string, SerialValue)>>)

  function IdentityOf(l: CartLine): Identity
  {
    Identity(l.productId, l.variantId, Serialize(l.customizationData))
  }

  /** No two lines share an identity. */
  predicate DistinctIdentities(items: seq<CartLine>)
  {
    forall i, j :: 0 <= i < j < |items| ==> IdentityOf(items[i]) != IdentityOf(items[j])
  }

  // ---------------------------------------------------------------------
  // addToCart

  /** The line `addToCart` creates: quantity 1, the product's base price, and
      no variant record. */
  function NewLine(product: Product, data: Option<Customization>, variantId: Option<string>,
                   lineId: string, user: Option<User>, now: string): CartLine
  {
    CartLine(lineId, if user.Some? then user.value.id else "", product.id, variantId, 1, data,
             product.basePrice, now, now, Some(product), None)
  }

  /** The first line whose identity is that of the request, as `findIndex` finds it. */
  function MatchIndex(items: seq<CartLine>, want: Identity): (r: Option<nat>)
    ensures r.None? <==> forall i :: 0 <= i < |items| ==> IdentityOf(items[i]) != want
    ensures r.Some? ==> r.value < |items| && IdentityOf(items[r.value]) == want
    ensures r.Some? ==> forall i :: 0 <= i < r.value ==> IdentityOf(items[i]) != want
  {
    FirstIndex(items, (l: CartLine) => IdentityOf(l) == want)
  }

  /** The new list of lines after `addToCart`: it grows by one exactly when
      no line held the request, and then the old lines come first and the
      new one holds a single unit. */
  function AddLine(items: seq<CartLine>, product: Product, data: Option<Customization>, variantId: Option<string>,
                   lineId: string, user: Option<User>, now: string): (r: seq<CartLine>)
    ensures |r| == |items| + (if MatchIndex(items, Identity(product.id, variantId, Serialize(data))).None? then 1 else 0)
    ensures MatchIndex(items, Identity(product.id, variantId, Serialize(data))).None? ==>
      r[..|items|] == items && r[|items|].quantity == 1
  {
    match MatchIndex(items, Identity(product.id, variantId, Serialize(data)))
    case Some(i) => items[i := items[i].(quantity := items[i].quantity + 1)]
    case None => items + [NewLine(product, data, variantId, lineId, user, now)]
  }

  /** After `addToCart` some line holds the request. */
  lemma AddLineHoldsRequest(items: seq<CartLine>, product: Product, data: Option<Customization>, variantId: Option<string>,
                            lineId: string, user: Option<User>, now: string)
    ensures MatchIndex(AddLine(items, product, data, variantId, lineId, user, now), Identity(product.id, variantId, Serialize(data))).Some?
  {
    var want := Identity(product.id, variantId, Serialize(data));
    var r := AddLine(items, product, data, variantId, lineId, user, now);
    match MatchIndex(items, want)
    case Some(i) =>
      assert IdentityOf(r[i]) == want;
    case None =>
      assert IdentityOf(r[|items|]) == want;
  }

  /** Adding what a line already holds raises that line's quantity by one and
      changes nothing else. */
  lemma AddToExistingLine(items: seq<CartLine>, product: Product, data: Option<Customization>, variantId: Option<string>,
                          lineId: string, user: Option<User>, now: string, i: nat)
    requires i < |items| && IdentityOf(items[i]) == Identity(product.id, variantId, Serialize(data))
    requires DistinctIdentities(items)
    ensures |AddLine(items, product, data, variantId, lineId, user, now)| == |items|
    ensures AddLine(items, product, data, variantId, lineId, user, now)[i] == items[i].(quantity := items[i].quantity + 1)
    ensures forall j :: 0 <= j < |items| && j != i ==> AddLine(items, product, data, variantId, lineId, user, now)[j] == items[j]
  {
    var m := MatchIndex(items, Identity(product.id, variantId, Serialize(data)));
    assert m.Some?;
    assert m.value == i;
  }

  /** Adding something no line holds appends one fresh line. */
  lemma AddNewLine(items: seq<CartLine>, product: Product, data: Option<Customization>, variantId: Option<string>,
                   lineId: string, user: Option<User>, now: string)
    requires forall j :: 0 <= j < |items| ==> IdentityOf(items[j]) != Identity(product.id, variantId, Serialize(data))
    ensures AddLine(items, product, data, variantId, lineId, user, now)
            == items + [NewLine(product, data, variantId, lineId, user, now)]
    ensures NewLine(product, data, variantId, lineId, user, now).quantity == 1
    ensures NewLine(product, data, variantId, lineId, user, now).unitPrice == product.basePrice
  {
  }

  /** `addToCart` never creates two lines with the same identity. */
  lemma AddKeepsIdentitiesDistinct(items: seq<CartLine>, product: Product, data: Option<Customization>, variantId: Option<string>,
                                   lineId: string, user: Option<User>, now: string)
    requires DistinctIdentities(items)
    ensures DistinctIdentities(AddLine(items, product, data, variantId, lineId, user, now))
  {
    var want := Identity(product.id, variantId, Serialize(data));
    var r := AddLine(items, product, data, variantId, lineId, user, now);
    var m := MatchIndex(items, want);
    if m.Some? {
      forall i, j | 0 <= i < j < |r|
        ensures IdentityOf(r[i]) != IdentityOf(r[j])
      {
        assert IdentityOf(r[i]) == IdentityOf(items[i]);
        assert IdentityOf(r[j]) == IdentityOf(items[j]);
      }
    } else {
      assert IdentityOf(r[|items|]) == want;
      forall i, j | 0 <= i < j < |r|
        ensures IdentityOf(r[i]) != IdentityOf(r[j])
      {
        if j < |items| {
          assert r[i] == items[i] && r[j] == items[j];
        } else {
          assert r[i] == items[i];
        }
      }
    }
  }

  // ---------------------------------------------------------------------
  // removeFromCart, updateQuantity

  function RemoveLine(items: seq<CartLine>, lineId: string): (r: seq<CartLine>)
    ensures forall i :: 0 <= i < |r| ==> r[i].id != lineId && r[i] in items
    ensures forall i :: 0 <= i < |items| && items[i].id != lineId ==> items[i] in r
  {
    Filter(items, (l: CartLine) => l.id != lineId)
  }

  /** Removing an id no line carries changes nothing. */
  lemma RemoveAbsentLine(items: seq<CartLine>, lineId: string)
    requires forall i :: 0 <= i < |items| ==> items[i].id != lineId
    ensures RemoveLine(items, lineId) == items
  {
    FilterKeepsAll(items, (l: CartLine) => l.id != lineId);
  }

  /** Removal keeps the surviving lines in their order: removing from a
      concatenation removes from each part. */
  lemma RemoveDistributes(a: seq<CartLine>, b: seq<CartLine>, lineId: string)
    ensures RemoveLine(a + b, lineId) == RemoveLine(a, lineId) + RemoveLine(b, lineId)
  {
    FilterConcat(a, b, (l: CartLine) => l.id != lineId);
  }

  /** Removing lines never makes two of the remaining lines share an identity. */
  lemma {:induction false} RemoveKeepsIdentitiesDistinct(items: seq<CartLine>, lineId: string)
    requires DistinctIdentities(items)
    ensures DistinctIdentities(RemoveLine(items, lineId))
  {
    if items != [] {
      var rest := RemoveLine(items[1..], lineId);
      RemoveKeepsIdentitiesDistinct(items[1..], lineId);
      var head := if items[0].id != lineId then [items[0]] else [];
      assert RemoveLine(items, lineId) == head + rest;
      forall k | 0 <= k < |rest|
        ensures IdentityOf(rest[k]) != IdentityOf(items[0])
      {
        var j :| 0 <= j < |items[1..]| && items[1..][j] == rest[k];
        assert items[j + 1] == rest[k];
      }
    }
  }

  /** The `map` step of `updateQuantity` with a positive quantity. */
  function SetQuantity(items: seq<CartLine>, lineId: string, quantity: int, now: string): (r: seq<CartLine>)
    ensures |r| == |items|
    ensures forall i :: 0 <= i < |items| ==>
      r[i] == if items[i].id == lineId then items[i].(quantity := quantity, updatedAt := now) else items[i]
  {
    if items == [] then []
    else
      [if items[0].id == lineId then items[0].(quantity := quantity, updatedAt := now) else items[0]]
      + SetQuantity(items[1..], lineId, quantity, now)
  }

  /** `updateQuantity`'s new list: a quantity of zero or less leaves no line
      with the id; any other keeps every line and gives the matching ones
      the quantity. */
  function UpdateLine(items: seq<CartLine>, lineId: string, quantity: int, now: string): (r: seq<CartLine>)
    ensures |r| <= |items|
    ensures quantity <= 0 ==> forall i :: 0 <= i < |r| ==> r[i].id != lineId
    ensures quantity > 0 ==> |r| == |items| && forall i :: 0 <= i < |r| && r[i].id == lineId ==> r[i].quantity == quantity
  {
    if quantity <= 0 then RemoveLine(items, lineId) else SetQuantity(items, lineId, quantity, now)
  }

  /** A quantity of zero or less removes the line; any other quantity touches
      only the matching line's quantity and timestamp. */
  lemma UpdateLineMeaning(items: seq<CartLine>, lineId: string, quantity: int, now: string)
    ensures quantity <= 0 ==> forall l :: l in UpdateLine(items, lineId, quantity, now) <==> l in items && l.id != lineId
    ensures quantity > 0 ==> |UpdateLine(items, lineId, quantity, now)| == |items|
    ensures quantity > 0 ==> forall i :: 0 <= i < |items| && items[i].id != lineId ==> UpdateLine(items, lineId, quantity, now)[i] == items[i]
    ensures quantity > 0 ==> forall i :: 0 <= i < |items| && items[i].id == lineId ==>
      UpdateLine(items, lineId, quantity, now)[i].quantity == quantity
  {
    if quantity <= 0 {
      var r := UpdateLine(items, lineId, quantity, now);
      forall l | l in items && l.id != lineId
        ensures l in r
      {
        var i :| 0 <= i < |items| && items[i] == l;
      }
    }
  }

  // ---------------------------------------------------------------------
  // Totals

  function LineQuantity(l: CartLine): int
  {
    l.quantity
  }

  /** `item.variant?.priceAdjustment || 0`. */
  function VariantAdjustment(l: CartLine): int
  {
    if l.variant.Some? then l.variant.value.priceAdjustment else 0
  }

  function LineTotal(l: CartLine): int
  {
    l.unitPrice * l.quantity + VariantAdjustment(l) * l.quantity
  }

  /** `getTotalItems`: an empty cart holds nothing, and lines of at least
      one unit each hold at least one item per line. */
  function TotalItems(items: seq<CartLine>): (n: int)
    ensures items == [] ==> n == 0
    ensures (forall i :: 0 <= i < |items| ==> items[i].quantity >= 1) ==> n >= |items|
  {
    SumBounds(items, LineQuantity);
    Sum(items, LineQuantity)
  }

  /** `getTotalPrice`, in cents: an empty cart costs nothing, and lines of
      non-negative cost never total below zero. */
  function TotalPrice(items: seq<CartLine>): (p: int)
    ensures items == [] ==> p == 0
    ensures (forall i :: 0 <= i < |items| ==> LineTotal(items[i]) >= 0) ==> p >= 0
  {
    SumBounds(items, LineTotal);
    Sum(items, LineTotal)
  }

  /** Every `addToCart` adds exactly one item to the count. */
  lemma AddLineCount(items: seq<CartLine>, product: Product, data: Option<Customization>, variantId: Option<string>,
                     lineId: string, user: Option<User>, now: string)
    ensures TotalItems(AddLine(items, product, data, variantId, lineId, user, now)) == TotalItems(items) + 1
  {
    var m := MatchIndex(items, Identity(product.id, variantId, Serialize(data)));
    if m.Some? {
      SumUpdate(items, m.value, items[m.value].(quantity := items[m.value].quantity + 1), LineQuantity);
    } else {
      SumConcat(items, [NewLine(product, data, variantId, lineId, user, now)], LineQuantity);
    }
  }

  /** One more unit adds one unit price, with its variant adjustment. */
  lemma LineTotalBump(l: CartLine)
    ensures LineTotal(l.(quantity := l.quantity + 1)) == LineTotal(l) + l.unitPrice + VariantAdjustment(l)
  {
    var u, a, q := l.unitPrice, VariantAdjustment(l), l.quantity;
    assert u * (q + 1) == u * q + u;
    assert a * (q + 1) == a * q + a;
  }

  /** Every `addToCart` adds one unit price to the total: the matched line's
      own (with its variant adjustment), or the product's base price for a
      new line. */
  lemma AddLinePrice(items: seq<CartLine>, product: Product, data: Option<Customization>, variantId: Option<string>,
                     lineId: string, user: Option<User>, now: string)
    ensures MatchIndex(items, Identity(product.id, variantId, Serialize(data))).None? ==>
      TotalPrice(AddLine(items, product, data, variantId, lineId, user, now)) == TotalPrice(items) + product.basePrice
    ensures MatchIndex(items, Identity(product.id, variantId, Serialize(data))).Some? ==>
      var l := items[MatchIndex(items, Identity(product.id, variantId, Serialize(data))).value];
      TotalPrice(AddLine(items, product, data, variantId, lineId, user, now))
        == TotalPrice(items) + l.unitPrice + VariantAdjustment(l)
  {
    var m := MatchIndex(items, Identity(product.id, variantId, Serialize(data)));
    if m.Some? {
      var l := items[m.value];
      SumUpdate(items, m.value, l.(quantity := l.quantity + 1), LineTotal);
      LineTotalBump(l);
    } else {
      SumConcat(items, [NewLine(product, data, variantId, lineId, user, now)], LineTotal);
    }
  }

  /** Removing a line takes out exactly the quantities and prices of the
      lines carrying its id. */
  lemma RemoveLineTotals(items: seq<CartLine>, lineId: string)
    ensures TotalItems(items) == TotalItems(RemoveLine(items, lineId)) + TotalItems(Filter(items, (l: CartLine) => l.id == lineId))
    ensures TotalPrice(items) == TotalPrice(RemoveLine(items, lineId)) + TotalPrice(Filter(items, (l: CartLine) => l.id == lineId))
  {
    var keep := (l: CartLine) => l.id != lineId;
    var drop := (l: CartLine) => l.id == lineId;
    FilterPartition(items, keep, drop);
    var split := Filter(items, keep) + Filter(items, drop);
    SumPermutation(items, split, LineQuantity);
    SumPermutation(items, split, LineTotal);
    SumConcat(Filter(items, keep), Filter(items, drop), LineQuantity);
    SumConcat(Filter(items, keep), Filter(items, drop), LineTotal);
  }

  /** The totals do not depend on the order of the lines. */
  lemma TotalsIgnoreOrder(a: seq<CartLine>, b: seq<CartLine>)
    requires multiset(a) == multiset(b)
    ensures TotalItems(a) == TotalItems(b) && TotalPrice(a) == TotalPrice(b)
  {
    SumPermutation(a, b, LineQuantity);
    SumPermutation(a, b, LineTotal);
  }

  // ---------------------------------------------------------------------
  // getItemsByseller

  /** `item.product?.sellerId || 'unknown'`: an absent product or an empty
      seller id both fall into the 'unknown' group. */
  function SellerKey(l: CartLine): (k: string)
    ensures k != ""
  {
    if l.product.Some? && l.product.value.sellerId != "" then l.product.value.sellerId else "unknown"
  }

  /** The lines of one seller's group, in cart order. */
  function Bucket(items: seq<CartLine>, key: string): (r: seq<CartLine>)
    ensures |r| <= |items|
    ensures forall i :: 0 <= i < |r| ==> SellerKey(r[i]) == key
  {
    if items == [] then []
    else
      var last := items[|items| - 1];
      Bucket(items[..|items| - 1], key) + (if SellerKey(last) == key then [last] else [])
  }

  /** A line is in the group of its own seller key and in no other. */
  lemma {:induction false} BucketMembers(items: seq<CartLine>, key: string, l: CartLine)
    ensures l in Bucket(items, key) <==> l in items && SellerKey(l) == key
  {
    if items != [] {
      var init := items[..|items| - 1];
      BucketMembers(init, key, l);
      assert items == init + [items[|items| - 1]];
    }
  }

  /** Grouping preserves order: the group of a concatenation is the
      concatenation of the groups. */
  lemma {:induction false} BucketConcat(a: seq<CartLine>, b: seq<CartLine>, key: string)
    ensures Bucket(a + b, key) == Bucket(a, key) + Bucket(b, key)
  {
    if b != [] {
      var init := b[..|b| - 1];
      assert (a + b)[..|a + b| - 1] == a + init;
      BucketConcat(a, init, key);
    } else {
      assert a + b == a;
    }
  }

  /** Every line lands in exactly one group, so the group sizes add up to the
      number of lines. */
  /** The lines that belong to the group of `key`. */
  function InGroup(key: string): CartLine -> bool
  {
    (l: CartLine) => SellerKey(l) == key
  }

  /** The lines that belong to some other seller's group. */
  function OutsideGroup(key: string): CartLine -> bool
  {
    (l: CartLine) => SellerKey(l) != key
  }

  /** A group, built by pushing onto it in cart order, is the filter of the
      cart by its seller key. */
  lemma {:induction false} BucketIsFilter(items: seq<CartLine>, key: string)
    ensures Bucket(items, key) == Filter(items, InGroup(key))
  {
    if items != [] {
      var init := items[..|items| - 1];
      var last := items[|items| - 1];
      var g := InGroup(key);
      var tail := if SellerKey(last) == key then [last] else [];
      assert Bucket(items, key) == Bucket(init, key) + tail;
      BucketIsFilter(init, key);
      assert Filter([last], g) == tail by {
        assert [last][1..] == [];
      }
      assert items == init + [last];
      FilterConcat(init, [last], g);
    }
  }

  lemma BucketSizes(items: seq<CartLine>, key: string)
    ensures |Bucket(items, key)| + |Filter(items, OutsideGroup(key))| == |items|
  {
    BucketIsFilter(items, key);
    FilterSizes(items, InGroup(key), OutsideGroup(key));
  }

  /** A group exists exactly for the seller keys that occur in the cart. */
  lemma BucketNonEmpty(items: seq<CartLine>, key: string)
    ensures Bucket(items, key) != [] <==> exists i :: 0 <= i < |items| && SellerKey(items[i]) == key
  {
    if Bucket(items, key) != [] {
      BucketMembers(items, key, Bucket(items, key)[0]);
    }
    if i :| 0 <= i < |items| && SellerKey(items[i]) == key {
      BucketMembers(items, key, items[i]);
    }
  }

  /** One more line extends only the group of its own seller key. */
  lemma BucketStep(items: seq<CartLine>, i: nat, key: string)
    requires i < |items|
    ensures Bucket(items[..i + 1], key)
      == Bucket(items[..i], key) + (if SellerKey(items[i]) == key then [items[i]] else [])
  {
    assert items[..i + 1][..i] == items[..i];
  }

  /** `getItemsByseller`: one pass over the lines, creating a group on first
      sight of a seller key and pushing the line onto it. */
  method ItemsBySeller(items: seq<CartLine>) returns (groups: map<string, seq<CartLine>>)
    ensures forall k :: k in groups <==> exists i :: 0 <= i < |items| && SellerKey(items[i]) == k
    ensures forall k :: k in groups ==> groups[k] == Bucket(items, k)
  {
    groups := map[];
    var i := 0;
    while i < |items|
      invariant 0 <= i <= |items|
      invariant forall k :: k in groups <==> Bucket(items[..i], k) != []
      invariant forall k :: k in groups ==> groups[k] == Bucket(items[..i], k)
    {
      var key := SellerKey(items[i]);
      forall k
        ensures Bucket(items[..i + 1], k) == Bucket(items[..i], k) + (if key == k then [items[i]] else [])
      {
        BucketStep(items, i, k);
      }
      if key !in groups {
        groups := groups[key := []];
      }
      groups := groups[key := groups[key] + [items[i]]];
      i := i + 1;
    }
    assert items[..i] == items;
    forall k
      ensures Bucket(items, k) != [] <==> exists i :: 0 <= i < |items| && SellerKey(items[i]) == k
    {
      BucketNonEmpty(items, k);
    }
  }

  // ---------------------------------------------------------------------
  // hasCustomizedItems

  /** Customisation data that is present and has at least one key. */
  predicate Customized(l: CartLine)
  {
    l.customizationData.Some? && |l.customizationData.value| > 0
  }

  /** `hasCustomizedItems`, as the `some` scan from the front. */
  function HasCustomizedItems(items: seq<CartLine>): (r: bool)
    ensures r <==> exists i :: 0 <= i < |items| && Customized(items[i])
  {
    if items == [] then false
    else if Customized(items[0]) then true
    else
      var r := HasCustomizedItems(items[1..]);
      assert forall i :: 1 <= i < |items| ==> items[i] == items[1..][i - 1];
      r
  }

  // ---------------------------------------------------------------------
  // validateCart

  function ProductMissingMessage(lineId: string): string
  {
    "Product not found for cart item " + lineId
  }

  function RequiredMissingMessage(optionLabel: string, productName: string): string
  {
    "Required customization \"" + optionLabel + "\" missing for " + productName
  }

  /** `item.customizationData?.[key]`: absent data holds no key. */
  function DataOf(l: CartLine): Customization
  {
    if l.customizationData.Some? then l.customizationData.value else []
  }

  /** The messages for the first `n` options of a product. */
  function OptionErrors(options: seq<CustomizationOption>, data: Customization, productName: string, n: nat): seq<string>
    requires n <= |options|
  {
    if n == 0 then []
    else
      OptionErrors(options, data, productName, n - 1)
      + (if options[n - 1].required && !Truthy(Get(data, OptionKey(n - 1)))
         then [RequiredMissingMessage(options[n - 1].labelText, productName)] else [])
  }

  /** The options a line is checked against: those of a customisable product. */
  function CheckedOptions(l: CartLine): seq<CustomizationOption>
  {
    if l.product.Some? && l.product.value.isCustomizable && l.product.value.customizationOptions.Some?
    then l.product.value.customizationOptions.value else []
  }

  function LineErrors(l: CartLine): seq<string>
  {
    (if l.product.None? then [ProductMissingMessage(l.id)] else [])
    + (if l.product.Some?
       then OptionErrors(CheckedOptions(l), DataOf(l), l.product.value.name, |CheckedOptions(l)|) else [])
  }

  /** The errors of the lines, in cart order. */
  function CartErrors(items: seq<CartLine>): seq<string>
  {
    if items == [] then [] else CartErrors(items[..|items| - 1]) + LineErrors(items[|items| - 1])
  }

  /** The cart has no errors exactly when no line has any. */
  lemma {:induction false} CartErrorsEmptyIff(items: seq<CartLine>)
    ensures CartErrors(items) == [] <==> forall i :: 0 <= i < |items| ==> LineErrors(items[i]) == []
  {
    if items != [] {
      var init := items[..|items| - 1];
      CartErrorsEmptyIff(init);
      assert forall i :: 0 <= i < |init| ==> init[i] == items[i];
    }
  }

  /** The inner `forEach` over one product's options. */
  method CheckOptions(options: seq<CustomizationOption>, data: Customization, productName: string)
    returns (errors: seq<string>)
    ensures errors == OptionErrors(options, data, productName, |options|)
  {
    errors := [];
    var index := 0;
    while index < |options|
      invariant 0 <= index <= |options|
      invariant errors == OptionErrors(options, data, productName, index)
    {
      if options[index].required && !Truthy(Get(data, OptionKey(index))) {
        errors := errors + [RequiredMissingMessage(options[index].labelText, productName)];
      }
      index := index + 1;
    }
  }

  /** `validateCart`. */
  method ValidateCart(items: seq<CartLine>) returns (isValid: bool, errors: seq<string>)
    ensures errors == CartErrors(items)
    ensures isValid <==> errors == []
  {
    errors := [];
    var i := 0;
    while i < |items|
      invariant 0 <= i <= |items|
      invariant errors == CartErrors(items[..i])
    {
      var item := items[i];
      if item.product.None? {
        errors := errors + [ProductMissingMessage(item.id)];
      } else {
        var more := CheckOptions(CheckedOptions(item), DataOf(item), item.product.value.name);
        errors := errors + more;
      }
      assert items[..i + 1][..i] == items[..i];
      i := i + 1;
    }
    assert items[..i] == items;
    isValid := |errors| == 0;
  }

  /** A line is in order when its product is known and every required option
      of a customisable product is filled. */
  predicate LineValid(l: CartLine)
  {
    l.product.Some? && RequiredFilled(CheckedOptions(l), DataOf(l))
  }

  lemma {:induction false} OptionErrorsEmpty(options: seq<CustomizationOption>, data: Customization, productName: string, n: nat)
    requires n <= |options|
    ensures OptionErrors(options, data, productName, n) == [] <==>
      forall i :: 0 <= i < n && options[i].required ==> Truthy(Get(data, OptionKey(i)))
  {
    if n > 0 {
      OptionErrorsEmpty(options, data, productName, n - 1);
    }
  }

  /** One message per required option left unfilled. */
  lemma {:induction false} OptionErrorsCount(options: seq<CustomizationOption>, data: Customization, productName: string, n: nat)
    requires n <= |options|
    ensures |OptionErrors(options, data, productName, n)|
            == |Filter(options[..n], (o: CustomizationOption) => o.required) |
               - |RequiredFilledAmong(options, data, n)|
  {
    if n > 0 {
      OptionErrorsCount(options, data, productName, n - 1);
      assert options[..n] == options[..n - 1] + [options[n - 1]];
      FilterConcat(options[..n - 1], [options[n - 1]], (o: CustomizationOption) => o.required);
    }
  }

  /** The indices, below `n`, of required options that are filled. */
  function RequiredFilledAmong(options: seq<CustomizationOption>, data: Customization, n: nat): seq<nat>
    requires n <= |options|
  {
    if n == 0 then []
    else
      RequiredFilledAmong(options, data, n - 1)
      + (if options[n - 1].required && Truthy(Get(data, OptionKey(n - 1))) then [n - 1] else [])
  }

  /** The cart is valid exactly when every line is. */
  lemma {:induction false} CartValidIff(items: seq<CartLine>)
    ensures CartErrors(items) == [] <==> forall i :: 0 <= i < |items| ==> LineValid(items[i])
  {
    if items != [] {
      var init := items[..|items| - 1];
      var last := items[|items| - 1];
      CartValidIff(init);
      if last.product.Some? {
        OptionErrorsEmpty(CheckedOptions(last), DataOf(last), last.product.value.name, |CheckedOptions(last)|);
      }
      assert forall i :: 0 <= i < |init| ==> init[i] == items[i];
    }
  }

  // ---------------------------------------------------------------------
  // The hook's state

  class Cart {
    var items: seq<CartLine>
    var isLoading: bool

    constructor()
      ensures items == [] && !isLoading
    {
      items := [];
      isLoading := false;
    }

    /** `addToCart`: the loading flag is raised for the duration and lowered
        at the end. */
    method AddToCart(product: Product, data: Option<Customization>, variantId: Option<string>,
                     lineId: string, user: Option<User>, now: string)
      modifies this
      ensures items == AddLine(old(items), product, data, variantId, lineId, user, now)
      ensures !isLoading
      ensures DistinctIdentities(old(items)) ==> DistinctIdentities(items)
    {
      isLoading := true;
      if DistinctIdentities(items) {
        AddKeepsIdentitiesDistinct(items, product, data, variantId, lineId, user, now);
      }
      items := AddLine(items, product, data, variantId, lineId, user, now);
      isLoading := false;
    }

    method RemoveFromCart(lineId: string)
      modifies this
      ensures items == RemoveLine(old(items), lineId)
      ensures isLoading == old(isLoading)
      ensures DistinctIdentities(old(items)) ==> DistinctIdentities(items)
    {
      if DistinctIdentities(items) {
        RemoveKeepsIdentitiesDistinct(items, lineId);
      }
      items := RemoveLine(items, lineId);
    }

    method UpdateQuantity(lineId: string, quantity: int, now: string)
      modifies this
      ensures items == UpdateLine(old(items), lineId, quantity, now)
      ensures isLoading == old(isLoading)
      ensures DistinctIdentities(old(items)) ==> DistinctIdentities(items)
    {
      if quantity <= 0 {
        RemoveFromCart(lineId);
        return;
      }
      items := SetQuantity(items, lineId, quantity, now);
    }

    method ClearCart()
      modifies this
      ensures items == [] && isLoading == old(isLoading)
    {
      items := [];
    }
  }
}
