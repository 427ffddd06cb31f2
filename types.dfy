/** The shared front-end records of types.ts.  Prices and amounts are
    JavaScript numbers, modelled as reals; optional fields are Options. */
module Types {
  import opened Wrappers

  datatype TikTokProduct = TikTokProduct(
    id: string,
    name: Option<string>,
    title: string,
    price: real,
    imageUrl: string,
    seller: string,
    merchant: Option<string>,
    category: string,
    rating: real,
    inventory: real,
    url: Option<string>)

  datatype ShippingAddress = ShippingAddress(
    fullName: string,
    email: Option<string>,
    street: string,
    city: string,
    state: string,
    zip: string)

  /** The step vocabulary of the storefront: pending, active, complete. */
  datatype StepStatus = Pending | Active | Complete

  datatype FulfillmentStep = FulfillmentStep(
    id: string,
    stepLabel: string,
    status: StepStatus,
    timestamp: Option<int>,
    description: Option<string>,
    icon: Option<string>)

  datatype OrderStatus = Pending | Processing | Shipped | Delivered

  datatype Order = Order(
    id: string,
    productName: string,
    productImage: string,
    productPrice: real,
    totalUsdc: real,
    status: OrderStatus,
    txHash: string,
    shippingAddress: ShippingAddress,
    customerEmail: Option<string>,
    timestamp: string,
    steps: seq<FulfillmentStep>,
    isDemo: Option<bool>,
    walletAddress: Option<string>,
    trackingNumber: Option<string>,
    carrier: Option<string>)
}
