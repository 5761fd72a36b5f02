/** The shared data shapes of the marketplace (users, products, customisation
    options, variants, cart lines, orders and order items), as value types.
    Money is in integer cents; identifiers and timestamps are opaque strings. */
module Types {
  import opened Common

  datatype Role = Customer | Seller | Admin

  datatype User = User(id: string, email: string, role: Role, firstName: string, lastName: string)

  datatype OptionType = ImageUpload | TextInput | ColorPicker | Dropdown | Checkbox

  /** A seller-defined personalisation input on a product. */
  datatype CustomizationOption = CustomizationOption(
    kind: OptionType,
    labelText: string,
    required: bool,
    choices: Option<seq<string>>,
    maxLength: Option<int>,
    allowedFormats: Option<seq<string>>,
    maxFileSize: Option<nat>)       // megabytes

  datatype ProductVariant = ProductVariant(id: string, productId: string, name: string, priceAdjustment: int)

  datatype Product = Product(
    id: string,
    sellerId: string,
    categoryId: string,
    name: string,
    description: Option<string>,
    shortDescription: Option<string>,
    basePrice: int,
    sku: Option<string>,
    isCustomizable: bool,
    customizationOptions: Option<seq<CustomizationOption>>,
    tags: seq<string>,
    isFeatured: bool)

  /** A file chosen in the browser; only its name and size are observable here. */
  datatype FileRef = FileRef(name: string, size: nat)

  /** A value stored under an option key: typed text, a chosen colour or
      dropdown entry, or an uploaded image with its preview data URL. */
  datatype CustomValue = Text(text: string) | Upload(file: FileRef, preview: string, fileName: string)

  /** Customisation data: a JavaScript object, i.e. keys with values in
      insertion order. */
  type Customization = seq<(string, CustomValue)>

  datatype OrderStatus = Pending | Confirmed | Processing | Shipped | Delivered | Cancelled

  datatype CustomizationStatus = CustomizationPending | Approved | InProgress | Completed

  /** An order line as the order tables show it. */
  datatype OrderItem = OrderItem(
    id: string,
    orderId: string,
    productId: string,
    sellerId: string,
    quantity: int,
    unitPrice: int,
    customizationData: Option<Customization>,
    customizationStatus: CustomizationStatus,
    customizationNotes: Option<string>)

  /** An order with its items relation, which may not have been loaded. */
  datatype Order = Order(
    id: string,
    orderNumber: string,
    customerId: string,
    status: OrderStatus,
    totalAmount: int,
    orderItems: Option<seq<OrderItem>>)
}
