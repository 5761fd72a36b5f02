# HamperNests marketplace core, modelled in Dafny

HamperNests is a React storefront for personalised gift hampers. Customers,
sellers and admins share one catalogue. This project models the parts of the
front end that decide things, with the browser, the network and the UI
framework taken out:

- the role permission table, `hasPermission` and the permission listing;
- the two shopping-cart hooks: the basic cart keyed by product id, and the
  enhanced cart keyed by product, variant and serialised customisation;
- the order total and order-item mapping of `createOrder`;
- the card form of the payment processor: input formatting, validation and
  the gate in front of the payment;
- language selection, translation lookup and parameter substitution;
- the protected-route decision;
- the coupon page and coupon card;
- the order tables of sellers and admins: status filter, counts, status
  colours and the two update handlers;
- the seller's product form with its customisation-option editor;
- the product page: customisation keys, the upload size gate, the
  required-option check, the quantity stepper and reviews;
- the review form's image list, the wishlist, the seller's product search,
  the seller sidebar highlighting and the testimonial carousel.

Modelling conventions:

- Money is integer cents.
- Identifiers, timestamps, random values and object URLs are parameters.
- A JavaScript object used as a dictionary is either a sequence of key/value
  pairs (where the insertion order matters) or a Dafny `map`.
- `undefined` and `null` are `None`.
- Where a handler replaces a piece of component state, the component is a
  `class` whose fields are that state. Each handler is a `method` that
  `modifies` it.
- Pure computations are functions, with lemmas about them.

One module per source file. `Common` holds the sequence and string helpers
that mirror `filter`, `reduce`, `find`, `toLowerCase`, `includes`,
`startsWith` and `trim`. `Types` holds the shared records of `types/index.ts`.

Points where the code is narrower than one might expect, which the model
follows as written:

- Cart identity compares customisation data by its serialised form, which
  depends on key insertion order: the same choices entered in a different
  order make a different line (`EnhancedCart.MatchIndex`).
- The enhanced cart's `addToCart` takes no quantity and always adds one unit.
- `createOrder` has no tax, shipping, discount, per-seller grouping or
  validation step. `OrderAssembly` models what it computes: the total and
  one order item per cart line.
- The order items `createOrder` inserts carry no customisation data, no
  customisation status and no line total; the model's order items carry
  the same fields as the code's.
- The personalisation panel's switch has no case for the `checkbox` option
  type, so such an option renders no input; a required one can never be
  filled through the panel and always blocks adding to the cart
  (`ProductCustomization.RequiredCheckboxNeverFilled`).

## Model

| member | source | states |
|---|---|---|
| Permissions.Expand | project/src/lib/permissions.ts:52-54 | a single value becomes the one-element list; a list is returned as it is |
| Permissions.HasPermission | project/src/lib/permissions.ts:57-76 | the rule scan returns true iff the role is defined and some rule lists the resource and either `manage` or the action; an undefined role is refused |
| Permissions.GrantedThree | project/src/lib/permissions.ts:64-73 | for a three-rule role, access is the disjunction of what the three rules allow |
| Permissions.GrantedFour | project/src/lib/permissions.ts:64-73 | for a four-rule role, access is the disjunction of what the four rules allow |
| Permissions.AdminRule0 | project/src/lib/permissions.ts:34 | admin's `manage` rule allows every action on every resource except cart and wishlist |
| Permissions.AdminRule1 | project/src/lib/permissions.ts:35 | admin's second rule allows exactly `approve` on seller profiles, products and reviews |
| Permissions.AdminRule2 | project/src/lib/permissions.ts:36 | admin's third rule allows exactly `refund` on orders |
| Permissions.AdminMatrix | project/src/lib/permissions.ts:33-37 | admin's grants equal the independently written admin access matrix |
| Permissions.SellerRule0 | project/src/lib/permissions.ts:39 | the seller's first rule allows exactly the four CRUD actions on products and coupons |
| Permissions.SellerRule1 | project/src/lib/permissions.ts:40 | the seller's second rule allows exactly view, fulfill and update on orders and order items |
| Permissions.SellerRule2 | project/src/lib/permissions.ts:41 | the seller's third rule allows exactly view on analytics |
| Permissions.SellerRule3 | project/src/lib/permissions.ts:42 | the seller's fourth rule allows exactly update on seller profiles |
| Permissions.SellerMatrix | project/src/lib/permissions.ts:38-43 | the seller's grants equal the seller access matrix |
| Permissions.CustomerRule0 | project/src/lib/permissions.ts:45 | the customer's first rule allows exactly CRUD on cart and wishlist |
| Permissions.CustomerRule1 | project/src/lib/permissions.ts:46 | the customer's second rule allows exactly create and view on orders |
| Permissions.CustomerRule2 | project/src/lib/permissions.ts:47 | the customer's third rule allows exactly create and view on reviews |
| Permissions.CustomerRule3 | project/src/lib/permissions.ts:48 | the customer's fourth rule allows exactly view on products, categories and announcements |
| Permissions.CustomerMatrix | project/src/lib/permissions.ts:44-49 | the customer's grants equal the customer access matrix |
| Permissions.GrantedIsMatrix | project/src/lib/permissions.ts:32-50 | for every role, action and resource, the rule scan grants exactly what the matrix grants |
| Permissions.AdminManagesItsResources | project/src/lib/permissions.ts:34 | admin may perform every action, including ones no rule names, on each of its ten managed resources |
| Permissions.AdminHasNoCartOrWishlist | project/src/lib/permissions.ts:33-37 | admin holds no permission of any kind on cart or wishlist |
| Permissions.SellerFulfilsOrders | project/src/lib/permissions.ts:40 | a seller may fulfill orders and order items |
| Permissions.SellerKeepsOrders | project/src/lib/permissions.ts:38-43 | a seller may not delete orders or order items |
| Permissions.SellerHasNoUserRights | project/src/lib/permissions.ts:38-43 | a seller has no permission of any kind on users |
| Permissions.CustomerOnlyViewsCatalogue | project/src/lib/permissions.ts:44-49 | on products, categories and announcements a customer may view and do nothing else |
| Permissions.GetRolePermissions | project/src/lib/permissions.ts:79-97 | the nested loops produce the rule-by-rule, action-by-action, resource-by-resource listing |
| Permissions.ExpandRules | project/src/lib/permissions.ts:82-95 | the loop over rules appends each rule's pairs in rule order |
| Permissions.PushRule | project/src/lib/permissions.ts:85-94 | the loop over one rule's actions appends that rule's pairs in action order |
| Permissions.PushCrud | project/src/lib/permissions.ts:86-90 | a `manage` action appends view, create, update and delete for each resource in turn |
| Permissions.PushPairs | project/src/lib/permissions.ts:91-93 | any other action appends one pair per resource |
| Permissions.CrudPairsMembers | project/src/lib/permissions.ts:88-90 | a pair is in the CRUD expansion iff its action is one of the four CRUD actions and its resource is listed |
| Permissions.PairsForMembers | project/src/lib/permissions.ts:92 | a pair is in one action's expansion iff it has that action and a listed resource |
| Permissions.ActionPairsMembers | project/src/lib/permissions.ts:85-94 | a pair is in a rule's expansion iff the rule lists its resource and either names its action or, for a CRUD action, names `manage` |
| Permissions.RulePairsSource | project/src/lib/permissions.ts:82-95 | every pair in the listing comes from some rule of the role |
| Permissions.RulePairsComplete | project/src/lib/permissions.ts:82-95 | every pair a rule lists is in the listing |
| Permissions.ListingIsSound | project/src/lib/permissions.ts:79-97 | every listed pair is granted by `hasPermission`, and `manage` itself is never listed |
| Permissions.ListingExpandsManage | project/src/lib/permissions.ts:79-97 | a pair is listed iff its action is not `manage` and some rule names it outright or grants it as CRUD under `manage` |
| EnhancedCart.SerialEntries | project/src/hooks/useEnhancedCart.ts:35 | serialisation keeps each key and its position, and reduces each value to what `JSON.stringify` keeps of it |
| EnhancedCart.MatchIndex | project/src/hooks/useEnhancedCart.ts:32-36 | none is found iff no line has the requested identity; otherwise the returned line has it and no earlier line does |
| EnhancedCart.AddLine | project/src/hooks/useEnhancedCart.ts:28-68 | `addToCart`'s new list: one line longer exactly when no line has the same identity (product, variant, serialised customisation); in that case the old lines are kept as a prefix and the new line holds one unit |
| EnhancedCart.AddLineHoldsRequest | project/src/hooks/useEnhancedCart.ts:28-68 | after `addToCart`, some line of the cart has the identity that was asked for |
| EnhancedCart.AddToExistingLine | project/src/hooks/useEnhancedCart.ts:38-42 | adding what a line already holds raises that line's quantity by one and leaves the length and every other line unchanged |
| EnhancedCart.AddNewLine | project/src/hooks/useEnhancedCart.ts:44-59 | adding something no line holds appends one line with quantity 1 and the product's base price |
| EnhancedCart.AddKeepsIdentitiesDistinct | project/src/hooks/useEnhancedCart.ts:28-68 | `addToCart` never creates two lines with the same product, variant and serialised customisation |
| EnhancedCart.RemoveLine | project/src/hooks/useEnhancedCart.ts:70-73 | no line with the id survives, and every other line does |
| EnhancedCart.RemoveAbsentLine | project/src/hooks/useEnhancedCart.ts:71 | removing an id that no line carries changes nothing |
| EnhancedCart.RemoveDistributes | project/src/hooks/useEnhancedCart.ts:71 | removal commutes with concatenation, so the surviving lines keep their order |
| EnhancedCart.RemoveKeepsIdentitiesDistinct | project/src/hooks/useEnhancedCart.ts:70-73 | removing lines never makes two remaining lines share an identity |
| EnhancedCart.SetQuantity | project/src/hooks/useEnhancedCart.ts:81-83 | lines with the id get the new quantity and timestamp; the length and every other line are unchanged |
| EnhancedCart.UpdateLine | project/src/hooks/useEnhancedCart.ts:75-85 | `updateQuantity` never lengthens the cart; a quantity of zero or less leaves no line with that id; a positive quantity keeps the length and gives every line with that id the new quantity |
| EnhancedCart.UpdateLineMeaning | project/src/hooks/useEnhancedCart.ts:75-85 | a quantity of zero or less removes the line; a positive one rewrites only the matching lines |
| EnhancedCart.TotalItems | project/src/hooks/useEnhancedCart.ts:92-94 | `getTotalItems` is 0 for an empty cart and at least the number of lines when every line holds one unit or more |
| EnhancedCart.TotalPrice | project/src/hooks/useEnhancedCart.ts:96-103 | `getTotalPrice` is 0 for an empty cart and never negative when no line total is |
| EnhancedCart.AddLineCount | project/src/hooks/useEnhancedCart.ts:28-94 | every `addToCart` raises the item count by exactly one |
| EnhancedCart.LineTotalBump | project/src/hooks/useEnhancedCart.ts:96-102 | one more unit adds one unit price and one variant adjustment to a line's total |
| EnhancedCart.AddLinePrice | project/src/hooks/useEnhancedCart.ts:28-103 | `addToCart` raises the total price by the matched line's unit price and variant adjustment, or by the product's base price for a new line |
| EnhancedCart.RemoveLineTotals | project/src/hooks/useEnhancedCart.ts:70-103 | removing a line lowers both totals by exactly the removed lines' quantities and prices |
| EnhancedCart.TotalsIgnoreOrder | project/src/hooks/useEnhancedCart.ts:92-102 | both totals are the same for any reordering of the lines |
| EnhancedCart.SellerKey | project/src/hooks/useEnhancedCart.ts:109 | the group key is never empty: an absent product or empty seller id falls back to 'unknown' |
| EnhancedCart.Bucket | project/src/hooks/useEnhancedCart.ts:105-117 | one seller's group is no larger than the cart and holds only lines of that seller |
| EnhancedCart.BucketMembers | project/src/hooks/useEnhancedCart.ts:108-114 | a line is in a group iff it is in the cart and its seller key is the group's key |
| EnhancedCart.BucketConcat | project/src/hooks/useEnhancedCart.ts:108-114 | grouping commutes with concatenation, so each group keeps cart order |
| EnhancedCart.BucketIsFilter | project/src/hooks/useEnhancedCart.ts:108-114 | the group a seller's lines are pushed into, in cart order, is exactly the cart filtered by that seller key |
| EnhancedCart.BucketNonEmpty | project/src/hooks/useEnhancedCart.ts:108-114 | a seller's group is non-empty iff some line in the cart has that seller key |
| EnhancedCart.BucketSizes | project/src/hooks/useEnhancedCart.ts:108-114 | a group and the lines outside it together account for every line once |
| EnhancedCart.ItemsBySeller | project/src/hooks/useEnhancedCart.ts:105-117 | the `forEach` builds a dictionary whose keys are exactly the seller keys in the cart and whose entries are the groups |
| EnhancedCart.HasCustomizedItems | project/src/hooks/useEnhancedCart.ts:119-121 | true iff some line has customisation data with at least one key |
| EnhancedCart.CheckOptions | project/src/hooks/useEnhancedCart.ts:132-136 | the inner loop pushes one message per required option whose key is unset or falsy, in option order |
| EnhancedCart.CartErrors | project/src/hooks/useEnhancedCart.ts:123-141 | the messages of every line, in cart order; no contract of its own: CartErrorsEmptyIff and CartValidIff state when it is empty, and ValidateCart is proved equal to it |
| EnhancedCart.CartErrorsEmptyIff | project/src/hooks/useEnhancedCart.ts:123-141 | the cart's error list is empty iff no line has an error |
| EnhancedCart.ValidateCart | project/src/hooks/useEnhancedCart.ts:123-141 | the errors are the per-line messages in cart order, and the cart is valid iff there are none |
| EnhancedCart.OptionErrorsEmpty | project/src/hooks/useEnhancedCart.ts:132-136 | a product's options produce no message iff every required option is filled |
| EnhancedCart.OptionErrorsCount | project/src/hooks/useEnhancedCart.ts:132-136 | one message per required option that is left unfilled |
| EnhancedCart.CartValidIff | project/src/hooks/useEnhancedCart.ts:123-141 | the cart is valid iff every line has its product and all its required options filled |
| EnhancedCart.Cart.constructor | project/src/hooks/useEnhancedCart.ts:7-8 | the cart starts empty and not loading |
| EnhancedCart.Cart.AddToCart | project/src/hooks/useEnhancedCart.ts:28-68 | the lines become the result of the add; loading is false afterwards; distinct identities are preserved |
| EnhancedCart.Cart.RemoveFromCart | project/src/hooks/useEnhancedCart.ts:70-73 | the lines become the filtered lines, and lines with distinct identities stay distinct |
| EnhancedCart.Cart.UpdateQuantity | project/src/hooks/useEnhancedCart.ts:75-85 | the lines become the updated lines, and lines with distinct identities stay distinct |
| EnhancedCart.Cart.ClearCart | project/src/hooks/useEnhancedCart.ts:87-90 | the cart becomes empty |
| BasicCart.AddQuantity | project/src/hooks/useCart.ts:31-35 | every entry with the id gains the quantity; the others and the length are unchanged |
| BasicCart.SetQuantity | project/src/hooks/useCart.ts:59-63 | every entry with the id gets the quantity; the others and the length are unchanged |
| BasicCart.Remove | project/src/hooks/useCart.ts:43-51 | no entry with the id survives, and every other entry does |
| BasicCart.ItemCount | project/src/hooks/useCart.ts:79-82 | 0 when no entry has the id, otherwise the quantity of the first entry with it |
| BasicCart.AddExisting | project/src/hooks/useCart.ts:29-35 | adding a product already present adds the quantity to its entries and keeps the length and the other entries |
| BasicCart.AddFresh | project/src/hooks/useCart.ts:38-39 | adding a new product appends one entry with the requested quantity |
| BasicCart.AddKeepsIdsUnique | project/src/hooks/useCart.ts:25-41 | entry ids stay unique across `addToCart` |
| BasicCart.AddRaisesItemCount | project/src/hooks/useCart.ts:25-82 | with unique ids, the count shown for the product grows by exactly the quantity added |
| BasicCart.UniqueCount | project/src/hooks/useCart.ts:79-82 | with unique ids, the count for an entry's id is that entry's quantity |
| BasicCart.RemoveAbsent | project/src/hooks/useCart.ts:49 | removing an id that no entry carries changes nothing |
| BasicCart.RemoveZeroesCount | project/src/hooks/useCart.ts:43-82 | a removed product counts zero |
| BasicCart.Add | project/src/hooks/useCart.ts:25-41 | `addToCart` keeps the length when the product is present and appends one entry otherwise (what happens to the entries: AddExisting and AddFresh) |
| BasicCart.Update | project/src/hooks/useCart.ts:53-63 | `updateQuantity` with 0 leaves no entry with that id; any other quantity keeps the length and gives the entry with that id the new quantity |
| BasicCart.TotalItems | project/src/hooks/useCart.ts:71-73 | `getTotalItems` is 0 for an empty cart and at least the number of entries when each holds one unit or more |
| BasicCart.TotalPrice | project/src/hooks/useCart.ts:75-77 | `getTotalPrice` is 0 for an empty cart and never negative when no entry total is |
| BasicCart.UpdateMeaning | project/src/hooks/useCart.ts:53-64 | exactly zero removes; any other quantity, negative ones included, is written into the matching entries only |
| BasicCart.AddExistingTotals | project/src/hooks/useCart.ts:29-77 | with unique ids, adding an existing product raises the item total by the quantity and the price total by price times quantity |
| BasicCart.AddIsUpdate | project/src/hooks/useCart.ts:31-35 | with unique ids, adding an existing product rewrites its one entry |
| BasicCart.AddFreshTotals | project/src/hooks/useCart.ts:38-77 | adding a new product raises the totals by the new entry's quantity and price times quantity |
| BasicCart.Cart.constructor | project/src/hooks/useCart.ts:6 | the cart starts empty |
| BasicCart.Cart.AddToCart | project/src/hooks/useCart.ts:25-41 | the entries become the result of the add, with unique ids preserved |
| BasicCart.Cart.RemoveFromCart | project/src/hooks/useCart.ts:43-51 | the entries become the filtered entries |
| BasicCart.Cart.UpdateQuantity | project/src/hooks/useCart.ts:53-64 | the entries become the updated entries |
| BasicCart.Cart.ClearCart | project/src/hooks/useCart.ts:66-69 | the cart becomes empty |
| OrderAssembly.PriceOf | project/src/hooks/useOrders.ts:30 | the unit price when it is a number, otherwise the plain price field |
| OrderAssembly.ProductIdOf | project/src/hooks/useOrders.ts:54 | the product id, else the linked product's id, else the item id |
| OrderAssembly.OrderItems | project/src/hooks/useOrders.ts:51-57 | one order item per cart line, in order, with the fresh id, the order id, the product id, the quantity and the price |
| OrderAssembly.NewOrder | project/src/hooks/useOrders.ts:38-43 | the order row carries the given id and user, the status 'pending' and the cart's total |
| OrderAssembly.TotalMatchesItems | project/src/hooks/useOrders.ts:29-57 | the order total equals the sum of price times quantity over the order items it inserts, NaN included |
| OrderAssembly.OrderTotal | project/src/hooks/useOrders.ts:29-32 | the order total, price times quantity summed over the cart; it has no contract of its own: TotalDefinedIff, TotalOfPricedCart and TotalMatchesItems state when it is defined and what it equals |
| OrderAssembly.TotalDefinedIff | project/src/hooks/useOrders.ts:29-32 | the total is a number iff every line has a price |
| OrderAssembly.TotalOfPricedCart | project/src/hooks/useOrders.ts:29-32 | when every line has a price, the total is the sum of price times quantity |
| ProductCustomization.DecimalString | project/src/components/product/ProductCustomization.tsx:51 | the decimal rendering of an index is a non-empty string of digits, one digit long exactly below 10 |
| ProductCustomization.DecimalStringInjective | project/src/components/product/ProductCustomization.tsx:51 | distinct indices render differently |
| ProductCustomization.OptionKey | project/src/components/product/ProductCustomization.tsx:51 | every key starts with 'option_' followed by the index |
| ProductCustomization.OptionKeyInjective | project/src/components/product/ProductCustomization.tsx:51 | distinct options never share a key |
| ProductCustomization.Get | project/src/components/product/ProductCustomization.tsx:116 | a key lookup finds nothing iff no entry has the key, and otherwise returns an entry's value |
| ProductCustomization.Put | project/src/components/product/ProductCustomization.tsx:19-48 | the spread update makes the key hold the new value and leaves every other key as it was |
| ProductCustomization.PutShape | project/src/components/product/ProductCustomization.tsx:37-40 | a new key is appended at the end; an existing key keeps its position and the other entries are unchanged |
| ProductCustomization.PutKeepsKeysUnique | project/src/components/product/ProductCustomization.tsx:37-40 | the update never duplicates a key |
| ProductCustomization.SetText | project/src/components/product/ProductCustomization.tsx:36-48 | text and colour changes store the string under the key and change nothing else |
| ProductCustomization.ChooseFile | project/src/components/product/ProductCustomization.tsx:19-73 | a file over the size limit is refused; otherwise the key holds the file, its preview and its name and nothing else changes |
| ProductCustomization.TooLarge | project/src/components/product/ProductCustomization.tsx:67 | a file is too large iff the option has a non-zero limit and the size exceeds that many megabytes; no contract of its own, UploadLimitIsInclusive and OnFileChosen state its effect |
| ProductCustomization.RequiredFilled | project/src/pages/customer/ProductDetailPage.tsx:107-115 | every required option has a truthy value in the data; no contract of its own, RequiredCheckboxNeverFilled, HandleAddToCart and OptionErrorsEmpty state what it decides |
| ProductCustomization.UploadLimitIsInclusive | project/src/components/product/ProductCustomization.tsx:67 | a file of exactly the limit in megabytes is accepted and one byte more is refused |
| ProductCustomization.CustomizationPanel.constructor | project/src/components/product/ProductCustomization.tsx:17 | the panel starts without a preview image |
| ProductCustomization.CustomizationPanel.OnFileChosen | project/src/components/product/ProductCustomization.tsx:19-73 | the change emitted is the file choice; the preview is set only when the file is accepted |
| ProductCustomization.RenderedKeys | project/src/components/product/ProductCustomization.tsx:53-196 | nothing renders unless the product is customisable with at least one option; otherwise option i gets an input, keyed by its position, exactly when its kind is not the checkbox, which falls to the switch's `default` |
| ProductCustomization.InputKeys | project/src/components/product/ProductCustomization.tsx:194-196 | the first n options render at most n inputs |
| ProductCustomization.InputKeyPosition | project/src/components/product/ProductCustomization.tsx:53-196 | each input for the first n options is keyed by the position of one of them whose kind the switch handles |
| ProductCustomization.LaterKeyAbsent | project/src/components/product/ProductCustomization.tsx:194-196 | the inputs for the first n options never use the key of a later position |
| ProductCustomization.InputKeysExactly | project/src/components/product/ProductCustomization.tsx:53-173 | among the first n options, option i has an input exactly when its kind is not the checkbox |
| ProductCustomization.InputKeysAllExactly | project/src/components/product/ProductCustomization.tsx:53-173 | every option has an input exactly when its kind is not the checkbox |
| ProductCustomization.InputKeysDistinct | project/src/components/product/ProductCustomization.tsx:194-196 | no two inputs for the first n options share a key |
| ProductCustomization.RenderedKeysDistinct | project/src/components/product/ProductCustomization.tsx:194-196 | no two rendered inputs share a key |
| ProductCustomization.SetTextKeepsRenderedKeys | project/src/components/product/ProductCustomization.tsx:36-48 | typing into a rendered input leaves the data holding only rendered keys |
| ProductCustomization.ChooseFileKeepsRenderedKeys | project/src/components/product/ProductCustomization.tsx:19-73 | an accepted upload through a rendered input leaves the data holding only rendered keys |
| ProductCustomization.RequiredCheckboxNeverFilled | project/src/components/product/ProductCustomization.tsx:171-172 | a required checkbox option has no input, so data written only through the panel never fills it and the product page's add-to-cart check always blocks |
| Payment.FormatCardNumber | project/src/components/payment/PaymentProcessor.tsx:34-46 | the card-number formatter; no contract of its own: CardNumberShape, CardNumberDigits, CardNumberLength and CardNumberIdempotent state its output, and FormatCardNumberInput is proved equal to it |
| Payment.Blocks | project/src/components/payment/PaymentProcessor.tsx:39-41 | the groups are empty iff the digits are, and each group has one to four characters |
| Payment.FormatCardNumberInput | project/src/components/payment/PaymentProcessor.tsx:34-47 | the loop that cuts the match into groups of four returns the formatted card number |
| Payment.BlocksStep | project/src/components/payment/PaymentProcessor.tsx:39-41 | the grouping takes the first four characters and then groups the rest |
| Payment.ConcatBlocks | project/src/components/payment/PaymentProcessor.tsx:39-41 | the groups put back together give the digits back |
| Payment.BlocksCount | project/src/components/payment/PaymentProcessor.tsx:39-41 | there are ceil(n / 4) groups |
| Payment.BlocksAreDigits | project/src/components/payment/PaymentProcessor.tsx:39-41 | groups of digits hold only digits |
| Payment.JoinLength | project/src/components/payment/PaymentProcessor.tsx:43 | joining with spaces adds one character per gap |
| Payment.DigitsOfJoin | project/src/components/payment/PaymentProcessor.tsx:43 | stripping the spaces from the joined groups gives the concatenated groups |
| Payment.JoinWellSpaced | project/src/components/payment/PaymentProcessor.tsx:43 | joined digit groups start and end with a digit, and every space sits between two digits |
| Payment.CardNumberShape | project/src/components/payment/PaymentProcessor.tsx:34-47 | the formatted card number holds only digits and single spaces between digits |
| Payment.CardNumberShortInput | project/src/components/payment/PaymentProcessor.tsx:34-47 | fewer than four digits come back as the bare digits |
| Payment.CardNumberDigits | project/src/components/payment/PaymentProcessor.tsx:35-43 | with at least four digits, the formatted number holds exactly the first sixteen digits of the input |
| Payment.CardNumberLength | project/src/components/payment/PaymentProcessor.tsx:34-47 | the formatted number is at most 19 characters long |
| Payment.CardNumberIdempotent | project/src/components/payment/PaymentProcessor.tsx:34-47 | formatting an already formatted number changes nothing |
| Payment.FormatExpiry | project/src/components/payment/PaymentProcessor.tsx:49-55 | the expiry formatter; no contract of its own: ExpiryShape, ExpiryDigits and ExpiryIdempotent state its output |
| Payment.ExpiryShape | project/src/components/payment/PaymentProcessor.tsx:49-55 | at most five characters; a slash at index 2 once two digits are typed, and only digits while fewer are |
| Payment.ExpiryDigits | project/src/components/payment/PaymentProcessor.tsx:49-55 | the formatted expiry holds exactly the first four digits of the input |
| Payment.DigitsAroundSlash | project/src/components/payment/PaymentProcessor.tsx:52 | stripping the slash from month/year gives the month and year digits |
| Payment.ExpiryIdempotent | project/src/components/payment/PaymentProcessor.tsx:49-55 | formatting an already formatted expiry changes nothing |
| Payment.CvvInput | project/src/components/payment/PaymentProcessor.tsx:238 | the CVV field holds only digits, at most four, and they are the first four digits typed |
| Payment.CvvIdempotent | project/src/components/payment/PaymentProcessor.tsx:238 | filtering an accepted CVV again changes nothing |
| Payment.Push | project/src/components/payment/PaymentProcessor.tsx:60-74 | a failed check adds its message and a passed check adds nothing |
| Payment.ValidateCard | project/src/components/payment/PaymentProcessor.tsx:57-77 | the four checks in sequence return the errors of the card |
| Payment.MessagesDistinct | project/src/components/payment/PaymentProcessor.tsx:57-77 | the four error messages are pairwise different |
| Payment.ErrorListMeaning | project/src/components/payment/PaymentProcessor.tsx:57-77 | each message is present iff its check failed, and the list is empty iff all four passed |
| Payment.CardErrors | project/src/components/payment/PaymentProcessor.tsx:57-77 | the list of card errors in check order; no contract of its own: CardErrorsMeaning and ErrorListInOrder state which messages appear and in what order, and ValidateCard is proved equal to it |
| Payment.CardErrorsMeaning | project/src/components/payment/PaymentProcessor.tsx:60-74 | the number error iff fewer than 16 non-space characters; the expiry error iff fewer than 5 characters; the CVV error iff fewer than 3; the name error iff the trimmed name is empty |
| Payment.PushInOrder | project/src/components/payment/PaymentProcessor.tsx:57-77 | appending a later check's message keeps the messages in check order |
| Payment.ErrorListInOrder | project/src/components/payment/PaymentProcessor.tsx:57-77 | the errors always come in the order number, expiry, CVV, name |
| Payment.PaymentForm.constructor | project/src/components/payment/PaymentProcessor.tsx:24-32 | the form starts on card payment with empty fields, not processing and not complete |
| Payment.PaymentForm.SelectMethod | project/src/components/payment/PaymentProcessor.tsx:152-178 | only the payment method changes |
| Payment.PaymentForm.TypeCardNumber | project/src/components/payment/PaymentProcessor.tsx:201-203 | the card number becomes the formatted input and nothing else changes |
| Payment.PaymentForm.TypeExpiry | project/src/components/payment/PaymentProcessor.tsx:219-221 | the expiry becomes the formatted input and nothing else changes |
| Payment.PaymentForm.TypeCvv | project/src/components/payment/PaymentProcessor.tsx:236-238 | the CVV becomes the filtered input and nothing else changes |
| Payment.PaymentForm.TypeName | project/src/components/payment/PaymentProcessor.tsx:254 | the cardholder name becomes the raw input and nothing else changes |
| Payment.PaymentForm.ProcessPayment | project/src/components/payment/PaymentProcessor.tsx:79-113 | a card payment with errors fails with the comma-joined errors; a valid payment (or another method) that the processor declines fails with 'Payment declined. Please try a different card.'; it succeeds iff validation passes (or another method is chosen) and the processor approves; success marks it complete; processing is off at the end |
| I18n.CodeRoundTrip | project/src/contexts/I18nContext.tsx:12-23 | each supported language is found by its code and by no other string |
| I18n.Split | project/src/contexts/I18nContext.tsx:81 | splitting gives at least one segment, and no segment contains the separator |
| I18n.SplitJoin | project/src/contexts/I18nContext.tsx:81 | joining the segments with the separator gives the string back |
| I18n.SplitWithoutSeparator | project/src/contexts/I18nContext.tsx:81 | a string without the separator is one segment |
| I18n.PrimarySubtagIsPrefix | project/src/contexts/I18nContext.tsx:54 | the primary subtag is the prefix of the browser tag up to its first hyphen |
| I18n.InitialLanguage | project/src/contexts/I18nContext.tsx:47-60 | the first language is English, the saved language, or the language of the browser tag's primary subtag |
| I18n.InitialLanguageChoice | project/src/contexts/I18nContext.tsx:47-60 | a supported saved code wins; otherwise a supported primary subtag of the browser tag; otherwise English |
| I18n.IsRTL | project/src/contexts/I18nContext.tsx:106 | right-to-left iff the language code is 'ar' |
| I18n.Resolve | project/src/contexts/I18nContext.tsx:81-90 | an empty path resolves to the value itself; a non-empty path resolves only through an object holding its first segment, and never through a non-object |
| I18n.ResolveConcat | project/src/contexts/I18nContext.tsx:84-90 | walking a path in two parts is walking the first part and then the second |
| I18n.TopLevelKey | project/src/contexts/I18nContext.tsx:81-90 | a key without dots is looked up directly in the top-level object |
| I18n.Placeholder | project/src/contexts/I18nContext.tsx:99 | the placeholder for a name is the name in double braces |
| I18n.ReplaceAll | project/src/contexts/I18nContext.tsx:99 | replace every occurrence of the placeholder; no contract of its own: ReplaceAbsent, ReplaceBySelf and ReplaceAfterPlainText state what it does |
| I18n.ReplaceAbsent | project/src/contexts/I18nContext.tsx:99 | replacing a pattern that does not occur changes nothing |
| I18n.ReplaceBySelf | project/src/contexts/I18nContext.tsx:99 | replacing a pattern by itself changes nothing |
| I18n.ReplaceAfterPlainText | project/src/contexts/I18nContext.tsx:99 | an occurrence after text that cannot start a match is replaced |
| I18n.ApplyParams | project/src/contexts/I18nContext.tsx:96-100 | substitute each parameter in turn; no contract of its own: NoPlaceholderUnchanged states that a text without a placeholder is unchanged |
| I18n.NoPlaceholderUnchanged | project/src/contexts/I18nContext.tsx:97-101 | a text without '{{' is returned unchanged whatever the parameters |
| I18n.Translate | project/src/contexts/I18nContext.tsx:80-104 | a missing path or a non-string value returns the key; a string is returned with its parameters substituted when parameters are given |
| I18n.I18nProvider.constructor | project/src/contexts/I18nContext.tsx:47-62 | the provider starts in the initial language with no translations |
| I18n.I18nProvider.SetLanguage | project/src/contexts/I18nContext.tsx:47 | only the language changes |
| I18n.I18nProvider.SetTranslations | project/src/contexts/I18nContext.tsx:62 | only the translations change |
| I18n.I18nProvider.T | project/src/contexts/I18nContext.tsx:80-104 | with no translations loaded every key comes back as itself; a missing path or one ending on a non-string gives the key; a string is returned as is, or with the parameters substituted when they are given |
| RouteGuard.LoadingShowsSpinner | project/src/components/routing/ProtectedRoute.tsx:20-26 | while loading, the spinner shows whatever else holds |
| RouteGuard.AnonymousGoesToLogin | project/src/components/routing/ProtectedRoute.tsx:29-31 | an anonymous visitor on a route that needs sign-in goes to '/login' |
| RouteGuard.AnonymousMaySkipRoleCheck | project/src/components/routing/ProtectedRoute.tsx:29-34 | an anonymous visitor on a route that does not need sign-in sees it, even with a required role |
| RouteGuard.SingleRoleIsList | project/src/components/routing/ProtectedRoute.tsx:35 | a single required role decides like the one-element list |
| RouteGuard.WrongRoleGoesHome | project/src/components/routing/ProtectedRoute.tsx:37-48 | a signed-in user without an allowed role goes to '/admin', '/seller' or '/' for admin, seller and customer |
| RouteGuard.Decide | project/src/components/routing/ProtectedRoute.tsx:20-48 | the spinner shows iff auth is loading; the page renders only for a signed-in user or a route without the auth requirement; a redirect goes to the login page or a role's home |
| RouteGuard.RenderIff | project/src/components/routing/ProtectedRoute.tsx:20-52 | the page renders iff not loading, a user is present or sign-in is not required, and no role is required, no user is present or the user's role is allowed |
| CouponCard.ExpiredProp | project/src/components/coupons/CouponCard.tsx:24 | a missing `isExpired` defaults to false |
| CouponCard.ButtonLabel | project/src/components/coupons/CouponCard.tsx:95-106 | an expired card has no button; otherwise the button reads 'Remove' iff the coupon is applied |
| CouponCard.ClickMatchesButton | project/src/components/coupons/CouponCard.tsx:27-106 | a click does nothing exactly when there is no button, removes under 'Remove' and applies under 'Apply' |
| CouponCard.HandleClick | project/src/components/coupons/CouponCard.tsx:27-35 | the card's click handler: nothing on an expired card, remove when applied, apply otherwise; no contract of its own: ClickDecision and ClickMatchesButton state it |
| CouponCard.ClickDecision | project/src/components/coupons/CouponCard.tsx:27-35 | expired does nothing; applied removes; otherwise applies |
| CouponsPage.ApplyCoupon | project/src/pages/customer/CouponsPage.tsx:58-60 | the id is appended after the existing ids |
| CouponsPage.RemoveCoupon | project/src/pages/customer/CouponsPage.tsx:62-64 | the id disappears and every other id stays |
| CouponsPage.RemoveUndoesApply | project/src/pages/customer/CouponsPage.tsx:58-64 | removing a freshly applied id restores the list |
| CouponsPage.Search | project/src/pages/customer/CouponsPage.tsx:66-70 | a coupon is shown iff its lower-cased code or description contains the lower-cased term |
| CouponsPage.EmptySearchKeepsAll | project/src/pages/customer/CouponsPage.tsx:66-70 | the empty search shows every coupon |
| CouponsPage.Active | project/src/pages/customer/CouponsPage.tsx:72 | the active list holds exactly the shown coupons that are not expired |
| CouponsPage.Expired | project/src/pages/customer/CouponsPage.tsx:73 | the expired list holds exactly the shown coupons that are expired |
| CouponsPage.ActiveExpiredPartition | project/src/pages/customer/CouponsPage.tsx:72-73 | the two lists together hold each shown coupon once, and none is in both |
| CouponsPage.Page.constructor | project/src/pages/customer/CouponsPage.tsx:17-18 | nothing applied and an empty search |
| CouponsPage.Page.SetSearchTerm | project/src/pages/customer/CouponsPage.tsx:103 | only the search term changes |
| CouponsPage.Page.ClickCard | project/src/pages/customer/CouponsPage.tsx:125-135 | an expired card changes nothing; otherwise the click removes an applied coupon or applies one that is not, so its applied state flips |
| OrderTable.SetOrderStatus | project/src/pages/seller/SellerOrders.tsx:212-217 | only the order with the id gets the new status; the count and the other orders are unchanged |
| OrderTable.SetOrderStatusIdempotent | project/src/pages/seller/SellerOrders.tsx:212-217 | setting the same status twice is setting it once |
| OrderTable.MapItems | project/src/pages/seller/SellerOrders.tsx:225-227 | the change applies to every item with the id and to no other; the length is kept |
| OrderManagement.FilteredOrders | project/src/components/order/OrderManagement.tsx:55-58 | 'all' keeps every order; a status keeps exactly the orders with that status |
| OrderManagement.StatusFiltersCoverAll | project/src/components/order/OrderManagement.tsx:55-58 | the six status filters together count every order exactly once |
| OrderManagement.CountStep | project/src/components/order/OrderManagement.tsx:55-58 | the count of a status grows by one for each order with it |
| OrderManagement.ItemCount | project/src/components/order/OrderManagement.tsx:143 | the item count is 0 iff the order has no item list or an empty one |
| OrderManagement.CustomizedCount | project/src/components/order/OrderManagement.tsx:143-146 | the customised count never exceeds the item count |
| OrderManagement.CustomizedCountZeroIff | project/src/components/order/OrderManagement.tsx:146 | the customised count is zero iff no item has customisation data |
| OrderManagement.StatusColor | project/src/components/order/OrderManagement.tsx:33-43 | the badge colour for a status; no contract of its own: KnownStatusColored and StatusColorMeaning state it |
| OrderManagement.KnownStatusColored | project/src/components/order/OrderManagement.tsx:33-43 | every known order status has a colour of its own rather than the gray default |
| OrderManagement.StatusColorMeaning | project/src/components/order/OrderManagement.tsx:33-43 | the gray default is used iff the status is unknown; shipped and delivered share a colour |
| OrderManagement.ShowsCustomizationActions | project/src/components/order/OrderManagement.tsx:271-295 | approve and reject show for a seller on an item that has customisation data and whose status is pending; no contract of its own: ActionsOnlyForPendingSellerItems and NoActionsInUncustomizedOrder state it |
| OrderManagement.ActionsOnlyForPendingSellerItems | project/src/components/order/OrderManagement.tsx:271-295 | customisation actions show only to sellers, never on an item without customisation data, and never on an item whose status is no longer pending |
| OrderManagement.NoActionsInUncustomizedOrder | project/src/components/order/OrderManagement.tsx:271-295 | an order with no customised item shows no customisation actions on any of its items |
| OrderManagement.Table.constructor | project/src/components/order/OrderManagement.tsx:29-31 | the filter starts on 'all' with empty notes and no order open |
| OrderManagement.Table.SetFilter | project/src/components/order/OrderManagement.tsx:30 | only the filter changes |
| OrderManagement.Table.OpenOrder | project/src/components/order/OrderManagement.tsx:164 | the view button opens the modal on a copy of the order as it is now; nothing else changes |
| OrderManagement.Table.CloseModal | project/src/components/order/OrderManagement.tsx:212 | the close button clears the open order; nothing else changes |
| OrderManagement.Table.TypeNotes | project/src/components/order/OrderManagement.tsx:31 | only the notes change |
| OrderManagement.Table.HandleCustomizationUpdate | project/src/components/order/OrderManagement.tsx:60-63 | the callback gets the item id, the status and the current notes; the notes are then cleared, and the open modal keeps its stale copy of the order, so the acted-on item still shows its buttons |
| SellerOrders.KeptNotes | project/src/pages/seller/SellerOrders.tsx:226 | non-empty new notes replace the old ones; missing or empty notes keep them |
| SellerOrders.UpdateCustomization | project/src/pages/seller/SellerOrders.tsx:221-229 | fails iff some order has no item list; otherwise every order keeps its fields and count, with its items updated |
| SellerOrders.UpdatedItemsMeaning | project/src/pages/seller/SellerOrders.tsx:225-227 | matching items get the status and the kept notes; the others and the length are unchanged |
| SellerOrders.UpdatedItemsIdempotent | project/src/pages/seller/SellerOrders.tsx:225-227 | applying the same item update twice is applying it once |
| SellerOrders.UpdateCustomizationIdempotent | project/src/pages/seller/SellerOrders.tsx:221-229 | applying the same customisation update twice is applying it once |
| SellerOrders.Page.constructor | project/src/pages/seller/SellerOrders.tsx:11 | the table holds the loaded orders |
| SellerOrders.Page.UpdateOrderStatus | project/src/pages/seller/SellerOrders.tsx:212-219 | the orders become the status-updated orders |
| SellerOrders.Page.UpdateCustomizationStatus | project/src/pages/seller/SellerOrders.tsx:221-231 | on failure nothing changes; otherwise the orders become the updated orders |
| AdminOrders.UpdateCustomization | project/src/pages/admin/AdminOrders.tsx:79-92 | every order keeps its position; its items are updated |
| AdminOrders.UpdateCustomizationShape | project/src/pages/admin/AdminOrders.tsx:84-91 | a missing item list becomes an empty one, a present one is updated item by item, and no other field changes |
| AdminOrders.UpdatedItemsMeaning | project/src/pages/admin/AdminOrders.tsx:87-89 | matching items get the status and the given notes, even missing ones; the others and the length are unchanged |
| AdminOrders.UpdatedItemsIdempotent | project/src/pages/admin/AdminOrders.tsx:87-89 | applying the same item update twice is applying it once |
| AdminOrders.UpdateCustomizationIdempotent | project/src/pages/admin/AdminOrders.tsx:84-91 | applying the same customisation update twice is applying it once |
| AdminOrders.Page.constructor | project/src/pages/admin/AdminOrders.tsx:75 | the table holds the initial orders |
| AdminOrders.Page.UpdateOrderStatus | project/src/pages/admin/AdminOrders.tsx:75-77 | the orders become the status-updated orders |
| AdminOrders.Page.UpdateCustomizationStatus | project/src/pages/admin/AdminOrders.tsx:79-92 | the orders become the customisation-updated orders |
| ProductManagement.OrEmpty | project/src/components/seller/ProductManagement.tsx:64-67 | a present value is kept and a missing one becomes '' |
| ProductManagement.FormOf | project/src/components/seller/ProductManagement.tsx:59-74 | the edit form loaded from a product; no contract of its own: FormOfBareProduct states it |
| ProductManagement.FormOfBareProduct | project/src/components/seller/ProductManagement.tsx:59-74 | editing a product with no description, short description, SKU or options loads '' for each text field and no options, with the other fields copied |
| ProductManagement.RemoveAt | project/src/components/seller/ProductManagement.tsx:99-104 | an index in range deletes exactly that position and keeps the rest in order; an out-of-range index changes nothing |
| ProductManagement.RemoveUndoesAdd | project/src/components/seller/ProductManagement.tsx:76-104 | removing the option just added restores the list |
| ProductManagement.RemoveAfterUpdate | project/src/components/seller/ProductManagement.tsx:90-104 | removing a position discards whatever update was written there |
| ProductManagement.ProductForm.constructor | project/src/components/seller/ProductManagement.tsx:19-32 | the form starts closed, not editing, with the default fields |
| ProductManagement.ProductForm.AddCustomizationOption | project/src/components/seller/ProductManagement.tsx:76-88 | a blank optional text input is appended and no other field changes |
| ProductManagement.ProductForm.UpdateCustomizationOption | project/src/components/seller/ProductManagement.tsx:90-97 | the copied array has only the given position replaced, the same length, and no other field changes |
| ProductManagement.ProductForm.RemoveCustomizationOption | project/src/components/seller/ProductManagement.tsx:99-104 | the options lose that position and no other field changes |
| ProductManagement.ProductForm.HandleEdit | project/src/components/seller/ProductManagement.tsx:59-74 | the product is being edited, the form holds its fields, and the form is open |
| ProductManagement.ProductForm.Cancel | project/src/components/seller/ProductManagement.tsx:142-145 | the form closes and the edit is dropped; the field values stay |
| ProductManagement.ProductForm.HandleSubmit | project/src/components/seller/ProductManagement.tsx:34-57 | an edit is sent with the product id and the fields, otherwise an add with the fields; then the form is reset and closed |
| ProductDetail.HandleAddToCart | project/src/pages/customer/ProductDetailPage.tsx:103-121 | no product does nothing; the add goes through iff the options are not checked or every required one is filled; otherwise it stops at the first required option left unfilled and names its label |
| ProductDetail.Decrement | project/src/pages/customer/ProductDetailPage.tsx:252 | the '-' button takes one off a quantity above 1 and gives 1 otherwise, so it never goes below 1 |
| ProductDetail.Increment | project/src/pages/customer/ProductDetailPage.tsx:259 | the '+' button adds one; no contract of its own: DecrementUndoesIncrement states it |
| ProductDetail.DecrementUndoesIncrement | project/src/pages/customer/ProductDetailPage.tsx:252-259 | from any quantity of at least 1, '-' after '+' returns to it |
| ProductDetail.ReviewerName | project/src/pages/customer/ProductDetailPage.tsx:133 | 'You' with no first name and no email; the email with no first name; otherwise the trim of first name, space, last name, with no surrounding whitespace |
| ProductDetail.ReviewerNameFullName | project/src/pages/customer/ProductDetailPage.tsx:133 | first and last names without surrounding blanks are shown as "first last" |
| ProductDetail.ReviewerNameFirstOnly | project/src/pages/customer/ProductDetailPage.tsx:133 | with no last name the joining space is trimmed away and the first name alone is shown |
| Common.TrimKeepsTrimmed | project/src/pages/customer/ProductDetailPage.tsx:133 | `trim` leaves a string that neither starts nor ends with whitespace unchanged |
| Common.TrimDropsTrailingSpace | project/src/pages/customer/ProductDetailPage.tsx:133 | `trim` removes a single space appended to a trimmed string |
| ProductDetail.Page.constructor | project/src/pages/customer/ProductDetailPage.tsx:18-20 | quantity 1 and no customisation |
| ProductDetail.Page.SetCustomization | project/src/pages/customer/ProductDetailPage.tsx:99-101 | only the customisation data changes |
| ProductDetail.Page.DecrementQuantity | project/src/pages/customer/ProductDetailPage.tsx:252 | the quantity steps down, never below 1 |
| ProductDetail.Page.IncrementQuantity | project/src/pages/customer/ProductDetailPage.tsx:259 | the quantity goes up by one |
| ProductDetail.Page.SubmitReview | project/src/pages/customer/ProductDetailPage.tsx:123-147 | without a user nothing is added; otherwise the new review goes first and the older reviews follow in order |
| ReviewForm.SliceTo | project/src/components/reviews/ReviewForm.tsx:42 | the slice is a prefix whose length is the end clamped to the list, with a negative end counted back from the length |
| ReviewForm.Previews | project/src/components/reviews/ReviewForm.tsx:46 | one preview URL per accepted image, in the same order |
| ReviewForm.SpliceOne | project/src/components/reviews/ReviewForm.tsx:57-58 | an index in range removes exactly that position; one at or past the end removes nothing; a negative one counts back from the end |
| ReviewForm.SpliceOneLength | project/src/components/reviews/ReviewForm.tsx:57-58 | removing shortens a non-empty list by one unless the index is past the end |
| ReviewForm.ReviewErrors | project/src/components/reviews/ReviewForm.tsx:7-10 | no error iff the rating is at least 1 and the comment has at least 10 characters; each message appears exactly when its rule fails |
| ReviewForm.Form.constructor | project/src/components/reviews/ReviewForm.tsx:19-20 | no images and no previews |
| ReviewForm.Form.UploadShown | project/src/components/reviews/ReviewForm.tsx:138 | the upload control shows iff fewer than five images are chosen |
| ReviewForm.Form.HandleImageUpload | project/src/components/reviews/ReviewForm.tsx:38-48 | no file list changes nothing; otherwise at most 5 minus the current count files are appended, each with its preview, so the count stays at most five and the lists stay equal in length |
| ReviewForm.Form.RemoveImage | project/src/components/reviews/ReviewForm.tsx:50-62 | the same position leaves both lists, which stay equal in length |
| ReviewForm.FullFormAcceptsNothing | project/src/components/reviews/ReviewForm.tsx:42 | a form with five images accepts no further file |
| Wishlist.Without | project/src/pages/customer/WishlistPage.tsx:60-63 | every entry with the id goes, every other entry stays, and the order is kept |
| Wishlist.WithoutAbsent | project/src/pages/customer/WishlistPage.tsx:61 | removing an absent id changes nothing |
| Wishlist.Find | project/src/pages/customer/WishlistPage.tsx:66 | nothing is found iff no entry has the id; otherwise the first entry with the id is returned |
| Wishlist.Page.constructor | project/src/pages/customer/WishlistPage.tsx:16 | the page holds the loaded wishlist |
| Wishlist.Page.RemoveFromWishlist | project/src/pages/customer/WishlistPage.tsx:60-63 | the wishlist loses every entry with the id |
| Wishlist.Page.MoveToCart | project/src/pages/customer/WishlistPage.tsx:65-72 | an absent id changes nothing; a present one is announced by the name of the first entry with it, and every entry with it is removed from the wishlist |
| SellerProducts.FilteredProducts | project/src/pages/seller/SellerProducts.tsx:15-18 | a product is kept iff its lower-cased name or description contains the lower-cased term; the result keeps the products' order |
| SellerProducts.EmptyTermKeepsAll | project/src/pages/seller/SellerProducts.tsx:15-18 | the empty search keeps every product |
| SellerProducts.NoDescriptionMatchesOnName | project/src/pages/seller/SellerProducts.tsx:17 | a product without a description is found only through its name |
| SellerProducts.SearchIgnoresCase | project/src/pages/seller/SellerProducts.tsx:16-17 | searching for the lower-cased term finds the same products as the term itself |
| SellerLayout.Navigation | project/src/components/layout/SellerLayout.tsx:23-54 | five entries; Products is current iff the path starts with '/seller/products'; every other entry is current iff the path equals its link |
| SellerLayout.NestedProductPageIsCurrent | project/src/components/layout/SellerLayout.tsx:34 | any page below '/seller/products' keeps Products current |
| SellerLayout.AtMostOneCurrent | project/src/components/layout/SellerLayout.tsx:23-54 | no path makes two entries current |
| Testimonials.JsRem | project/src/components/sections/Testimonials.tsx:43-56 | JavaScript's remainder agrees with the mathematical one on non-negative operands; for a negative dividend it lies in (-n, 0] and is what is left after the quotient truncated toward zero |
| Testimonials.Next | project/src/components/sections/Testimonials.tsx:50-52 | from an index in range the next one is in range: one more, or 0 after the last |
| Testimonials.Prev | project/src/components/sections/Testimonials.tsx:54-56 | from an index in range the previous one is in range: one less, or the last before 0 |
| Testimonials.PrevUndoesNext | project/src/components/sections/Testimonials.tsx:50-56 | previous undoes next, and next undoes previous |
| Testimonials.AdvanceStaysInRange | project/src/components/sections/Testimonials.tsx:43-47 | however many times the timer fires, the index stays in range |
| Testimonials.AdvanceCountsUp | project/src/components/sections/Testimonials.tsx:43-47 | before wrapping, k timer steps move the index k places on |
| Testimonials.AdvanceShift | project/src/components/sections/Testimonials.tsx:43-47 | a steps followed by b steps are a + b steps |
| Testimonials.FullCycleFromLast | project/src/components/sections/Testimonials.tsx:43-47 | from the last testimonial, n timer steps come back to it |
| Testimonials.Carousel.constructor | project/src/components/sections/Testimonials.tsx:41 | the carousel starts on the first testimonial |
| Testimonials.Carousel.Tick | project/src/components/sections/Testimonials.tsx:44-46 | the timer takes the same step as next and keeps the index in range |
| Testimonials.Carousel.NextTestimonial | project/src/components/sections/Testimonials.tsx:50-52 | the index steps forward and stays in range |
| Testimonials.Carousel.PrevTestimonial | project/src/components/sections/Testimonials.tsx:54-56 | the index steps back and stays in range |
| Testimonials.Carousel.SelectDot | project/src/components/sections/Testimonials.tsx:174-177 | clicking dot k shows testimonial k |

## Left out

- Browser storage is not modelled. The carts, the preferred language and the order lists are persisted and loaded through `localStorage`; persistence is I/O.
- Toasts, alerts, console output, loading spinners and the rest of the rendered markup are not modelled. Only the values that decide what is shown are.
- The network is not modelled: the order and order-item inserts, the status update calls and the product, order and review fetches.
- Asynchrony is not modelled. The FileReader callback, the simulated two-second payment delay and the dynamic import of translation files run as single steps; the English fallback when a translation file fails to load is not modelled.
- Randomness and clocks are parameters: cart-line, order, review and payment ids, timestamps, the 90% payment approval and `URL.createObjectURL`. Object URL revocation is not modelled.
- Money is integer cents. JavaScript float rounding of prices is not modelled.
- OrderAssembly.NewOrder: does not model the shipping address the order row also carries, which is passed through unchanged.
- Case folding covers the ASCII letters only; `toLowerCase` on other scripts is not modelled.
- String lengths count characters. JavaScript counts UTF-16 code units, which differs for characters outside the Basic Multilingual Plane.
- I18n.Translate: parameter names are matched literally. In the source the name is spliced into a regular expression, so a name containing regular-expression metacharacters, or a replacement containing `$` patterns, behaves differently.
- I18n.Translate: number-valued parameters are not modelled; the source converts them with `String`. Keys found through the prototype chain (`k in value`) and arrays inside translations are not modelled.
- Payment: the whitespace strip uses the ECMAScript white-space and line-terminator set written out; the `yup` schema library behind the review form is modelled only by the rules the schema states.
- The enhanced cart's `addToCart` increments the quantity in place on an object the old array shares (useEnhancedCart.ts line 41). EnhancedCart.AddToExistingLine models the resulting array, not the aliasing with the previous state.
- ProductDetail.HandleAddToCart: the option key uses the option's position. The source uses `indexOf` on the option object, which gives the same position unless one object appears twice in the list.
- ProductManagement.ProductForm.UpdateCustomizationOption: requires an index inside the list. In JavaScript a write past the end extends the array with holes, which no caller of the form does.
- OrderManagement: `getCustomizationStatusColor` is not modelled; it is a lookup table with no logic beyond the one modelled for `getStatusColor`.
- SellerOrders.UpdateCustomization: an order without an item list makes the source throw a TypeError; the model returns `None` and leaves the orders unchanged. The seller's loaded orders always carry item lists.
- Testimonials: the interval timer's scheduling and clean-up are not modelled, only the step it takes.
- ReviewForm: the object URLs the form revokes on removal and on submit are not modelled, and neither is the submit itself, which hands the images to the caller.
- ProductCustomization.TooLarge: the size limit is a whole number of megabytes. The source's `maxFileSize` is a JavaScript number, so a fractional limit such as 0.5 is possible there and is not modelled.
