/** The serverless order records of api/create-order.ts and
    api/order-status.ts, and the two stores they are kept in: the Vercel
    key-value store (when its module loads) and an in-memory map. */
module ServerStore {
  /** The server's step vocabulary, which differs from the storefront's. */
  datatype ServerStepStatus = Pending | Processing | Completed | Failed

  datatype ServerStep = ServerStep(id: string, stepLabel: string, status: ServerStepStatus,
                                   description: string, icon: string)

  datatype OrderProduct = OrderProduct(id: string, title: string, price: real,
                                       imageUrl: string, seller: string, category: string)

  datatype ServerAddress = ServerAddress(fullName: string, street: string, city: string,
                                         state: string, zip: string)

  datatype PaymentStatus = Pending | Paid | Bridging | Purchased | Shipped

  datatype LineItem = LineItem(product: OrderProduct, quantity: nat)

  datatype ServerOrder = ServerOrder(
    id: string,
    products: seq<LineItem>,
    totalUsdc: real,
    status: PaymentStatus,
    txHash: string,
    escrowPda: string,
    buyerPubkey: string,
    shippingAddress: ServerAddress,
    timestamp: string,
    steps: seq<ServerStep>)

  function ServerInitialStep(id: string, title: string, description: string, icon: string): ServerStep {
    ServerStep(id, title, ServerStepStatus.Pending, description, icon)
  }

  const SERVER_INITIAL_STEPS: seq<ServerStep> := [
    ServerInitialStep("1", "Escrow Lock", "Solana USDC transaction confirmation.", "wallet"),
    ServerInitialStep("2", "Fiat Off-Ramp", "Settling USDC to USD via Bridge.xyz.", "bridge"),
    ServerInitialStep("3", "VCC Issuance", "Generating proxy card for checkout.", "card"),
    ServerInitialStep("4", "Proxy Purchase", "Automated TikTok Shop execution.", "cart"),
    ServerInitialStep("5", "Tracking Sync", "Finalizing carrier tracking.", "truck")
  ]

  /** The key-value store: `order:<id>` records and the `orders:list`
      index, newest first. */
  datatype KvData = KvData(entries: map<string, ServerOrder>, list: seq<string>)

  function OrderKey(id: string): string {
    "order:" + id
  }

  lemma OrderKeyInjective(a: string, b: string)
    ensures OrderKey(a) == OrderKey(b) <==> a == b
  {
    if OrderKey(a) == OrderKey(b) {
      assert a == OrderKey(a)[6..] == OrderKey(b)[6..] == b;
    }
  }

  /** Both stores, as one value. */
  datatype Stores = Stores(kv: KvData, memory: map<string, ServerOrder>)

  /** The stores behind both endpoints.  Whether the key-value module
      loads is fixed for the deployment.  `memory` is one in-memory map
      that both endpoints share, as create-order.ts intends by exporting
      its map; order-status.ts as written declares a map of its own,
      which OrderStatusApi.CreatedOrderLostAsWritten shows. */
  class Backend {
    const kvAvailable: bool
    var kv: KvData
    var memory: map<string, ServerOrder>

    constructor (kvAvailable: bool)
      ensures this.kvAvailable == kvAvailable
      ensures kv == KvData(map[], []) && memory == map[]
    {
      this.kvAvailable := kvAvailable;
      kv := KvData(map[], []);
      memory := map[];
    }

    function State(): Stores
      reads this
    {
      Stores(kv, memory)
    }
  }
}
