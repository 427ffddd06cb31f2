/** The order list hook (src/hooks/useOrders.ts): a local list kept in
    React state and mirrored to the 'soltok_orders' cache, reconciled with
    a remote table through row conversions and realtime events.  The
    remote table is reached through calls whose answers are parameters;
    the calls issued are recorded in `remoteCalls`. */
module OrdersHook {
  import opened Wrappers
  import opened ServerStore

  datatype HookStatus = Pending | Locked | Processing | Shipped | Delivered | Refunded

  datatype ProductInfo = ProductInfo(name: string, image: string, price: real, merchant: string, url: string)

  /** The hook's order record; `createdAt` is the timestamp text the Date
      was built from. */
  datatype HookOrder = HookOrder(
    id: string,
    product: ProductInfo,
    status: HookStatus,
    escrowAmount: real,
    escrowTxHash: Option<string>,
    shippingAddress: ServerAddress,
    walletAddress: Option<string>,
    isDemo: bool,
    steps: seq<ServerStep>,
    createdAt: string)

  /** A row of the remote `orders` table without its timestamps, as
      `appToDbOrder` builds it. */
  datatype DbRow = DbRow(
    id: string,
    product_name: string,
    product_image: string,
    product_price: real,
    merchant: string,
    tiktok_url: string,
    status: HookStatus,
    escrow_amount: real,
    escrow_tx_hash: Option<string>,
    shipping_name: string,
    shipping_street: string,
    shipping_city: string,
    shipping_state: string,
    shipping_zip: string,
    wallet_address: Option<string>,
    is_demo: bool,
    fulfillment_steps: Option<seq<ServerStep>>)

  /** A stored row: the columns plus the timestamp the table assigned. */
  datatype DbOrder = DbOrder(row: DbRow, created_at: string)

  function DbToAppOrder(d: DbOrder): (o: HookOrder)
    ensures o.id == d.row.id && o.status == d.row.status && o.createdAt == d.created_at
    ensures d.row.fulfillment_steps.None? ==> o.steps == []
  {
    var r := d.row;
    HookOrder(r.id, ProductInfo(r.product_name, r.product_image, r.product_price, r.merchant, r.tiktok_url),
              r.status, r.escrow_amount, r.escrow_tx_hash,
              ServerAddress(r.shipping_name, r.shipping_street, r.shipping_city, r.shipping_state, r.shipping_zip),
              r.wallet_address, r.is_demo, r.fulfillment_steps.GetOr([]), d.created_at)
  }

  function AppToDbOrder(o: HookOrder): (r: DbRow)
    ensures r.id == o.id && r.status == o.status && r.fulfillment_steps == Some(o.steps)
  {
    DbRow(o.id, o.product.name, o.product.image, o.product.price, o.product.merchant, o.product.url,
          o.status, o.escrowAmount, o.escrowTxHash,
          o.shippingAddress.fullName, o.shippingAddress.street, o.shippingAddress.city,
          o.shippingAddress.state, o.shippingAddress.zip,
          o.walletAddress, o.isDemo, Some(o.steps))
  }

  /** Converting to a row and back loses nothing but the creation time,
      which the table assigns; and a row with steps survives the reverse
      trip. */
  lemma ConversionRoundTrip(o: HookOrder, createdAt: string, d: DbOrder)
    ensures DbToAppOrder(DbOrder(AppToDbOrder(o), createdAt)) == o.(createdAt := createdAt)
    ensures d.row.fulfillment_steps.Some? ==> AppToDbOrder(DbToAppOrder(d)) == d.row
  {
  }

  // ---------------------------------------------------------------------
  // List transforms

  function RemoveId(orders: seq<HookOrder>, id: string): (r: seq<HookOrder>)
    ensures |r| <= |orders|
    ensures forall o :: o in r <==> o in orders && o.id != id
  {
    if orders == [] then []
    else if orders[0].id == id then RemoveId(orders[1..], id)
    else [orders[0]] + RemoveId(orders[1..], id)
  }

  /** RemoveId works element by element: removing from a concatenation
      removes from each part, so the survivors keep their original order. */
  lemma {:induction false} RemoveIdKeepsOrder(xs: seq<HookOrder>, ys: seq<HookOrder>, id: string)
    ensures RemoveId(xs + ys, id) == RemoveId(xs, id) + RemoveId(ys, id)
  {
    if xs == [] {
      assert xs + ys == ys;
    } else {
      assert (xs + ys)[1..] == xs[1..] + ys;
      RemoveIdKeepsOrder(xs[1..], ys, id);
    }
  }

  /** A realtime INSERT: the record goes first and any earlier record
      with its id is dropped. */
  function InsertEvent(orders: seq<HookOrder>, o: HookOrder): (r: seq<HookOrder>)
    ensures |r| >= 1 && r[0] == o
    ensures forall i :: 1 <= i < |r| ==> r[i].id != o.id
    ensures forall x :: x in r <==> x == o || (x in orders && x.id != o.id)
    ensures |r| <= |orders| + 1
  {
    [o] + RemoveId(orders, o.id)
  }

  /** A realtime UPDATE (also `updateOrder`'s local step): every record
      with the id is replaced; length and positions are kept. */
  function ReplaceId(orders: seq<HookOrder>, o: HookOrder): (r: seq<HookOrder>)
    ensures |r| == |orders|
    ensures forall i :: 0 <= i < |orders| ==> r[i] == if orders[i].id == o.id then o else orders[i]
  {
    if orders == [] then []
    else [if orders[0].id == o.id then o else orders[0]] + ReplaceId(orders[1..], o)
  }

  /** An update for an id not in the list changes nothing. */
  lemma UpdateUnknownIdIsNoop(orders: seq<HookOrder>, o: HookOrder)
    requires forall i :: 0 <= i < |orders| ==> orders[i].id != o.id
    ensures ReplaceId(orders, o) == orders
  {
  }

  /** `Partial<Order>`: a present field overrides the record's. */
  datatype OrderPatch = OrderPatch(
    id: Option<string>,
    product: Option<ProductInfo>,
    status: Option<HookStatus>,
    escrowAmount: Option<real>,
    escrowTxHash: Option<Option<string>>,
    shippingAddress: Option<ServerAddress>,
    walletAddress: Option<Option<string>>,
    isDemo: Option<bool>,
    steps: Option<seq<ServerStep>>,
    createdAt: Option<string>)

  /** `{ ...o, ...updates }`. */
  function Merge(o: HookOrder, p: OrderPatch): (m: HookOrder)
    ensures p == OrderPatch(None, None, None, None, None, None, None, None, None, None) ==> m == o
    ensures m.status == p.status.GetOr(o.status) && m.steps == p.steps.GetOr(o.steps)
  {
    HookOrder(p.id.GetOr(o.id), p.product.GetOr(o.product), p.status.GetOr(o.status),
              p.escrowAmount.GetOr(o.escrowAmount), p.escrowTxHash.GetOr(o.escrowTxHash),
              p.shippingAddress.GetOr(o.shippingAddress), p.walletAddress.GetOr(o.walletAddress),
              p.isDemo.GetOr(o.isDemo), p.steps.GetOr(o.steps), p.createdAt.GetOr(o.createdAt))
  }

  function MergeInto(orders: seq<HookOrder>, id: string, p: OrderPatch): (r: seq<HookOrder>)
    ensures |r| == |orders|
    ensures forall i :: 0 <= i < |orders| ==> r[i] == if orders[i].id == id then Merge(orders[i], p) else orders[i]
  {
    if orders == [] then []
    else [if orders[0].id == id then Merge(orders[0], p) else orders[0]] + MergeInto(orders[1..], id, p)
  }

  /** The remote patch `updateOrder` sends: only a truthy status, tx hash
      or step list is carried. */
  datatype DbPatch = DbPatch(status: Option<HookStatus>, escrow_tx_hash: Option<string>,
                             fulfillment_steps: Option<seq<ServerStep>>)

  function RemotePatch(p: OrderPatch): (d: DbPatch)
    ensures d.status == p.status && d.fulfillment_steps == p.steps
    ensures d.escrow_tx_hash.Some? <==> p.escrowTxHash.Some? && p.escrowTxHash.value.Some?
                                         && p.escrowTxHash.value.value != ""
    ensures d.escrow_tx_hash.Some? ==> d.escrow_tx_hash == p.escrowTxHash.value
  {
    DbPatch(p.status,
            if p.escrowTxHash.Some? && p.escrowTxHash.value.Some? && p.escrowTxHash.value.value != ""
            then p.escrowTxHash.value else None,
            p.steps)
  }

  datatype RemoteCall = FetchAll(wallet: Option<string>) | Create(row: DbRow) | Update(id: string, patch: DbPatch)

  datatype RealtimeEvent = Insert(record: DbOrder) | UpdateRow(record: DbOrder) | Delete(id: string)

  /** The list after a realtime event. */
  function ApplyEvent(orders: seq<HookOrder>, e: RealtimeEvent): seq<HookOrder> {
    match e
    case Insert(d) => InsertEvent(orders, DbToAppOrder(d))
    case UpdateRow(d) => ReplaceId(orders, DbToAppOrder(d))
    case Delete(id) => RemoveId(orders, id)
  }

  class OrdersHook {
    const supabaseEnabled: bool
    var orders: seq<HookOrder>
    /** The parsed 'soltok_orders' cache entry; None when absent or not
        parseable. */
    var cache: Option<seq<HookOrder>>
    var isLoading: bool
    var error: Option<string>
    var remoteCalls: seq<RemoteCall>

    /** Every local list change is written through to the cache. */
    predicate CacheInSync()
      reads this
    {
      cache == Some(orders)
    }

    constructor (supabaseEnabled: bool, cache: Option<seq<HookOrder>>)
      ensures this.supabaseEnabled == supabaseEnabled && this.cache == cache
      ensures orders == [] && isLoading && error.None? && remoteCalls == []
    {
      this.supabaseEnabled := supabaseEnabled;
      this.cache := cache;
      orders := [];
      isLoading := true;
      error := None;
      remoteCalls := [];
    }

    /** `loadFromLocalStorage`. */
    function CachedOrders(): seq<HookOrder>
      reads this
    {
      cache.GetOr([])
    }

    /** The initial load.  `fetched` is what the remote read returned, or
        None when it threw. */
    method LoadOrders(wallet: Option<string>, fetched: Option<seq<DbOrder>>)
      modifies this
      ensures !isLoading
      ensures supabaseEnabled && fetched.Some? ==>
        && |orders| == |fetched.value|
        && (forall i :: 0 <= i < |orders| ==> orders[i] == DbToAppOrder(fetched.value[i]))
        && CacheInSync() && error.None?
      ensures supabaseEnabled && fetched.None? ==>
        orders == old(CachedOrders()) && cache == old(cache) && error == Some("Failed to load orders from database")
      ensures !supabaseEnabled ==> orders == old(CachedOrders()) && cache == old(cache) && error.None?
      ensures remoteCalls == old(remoteCalls) + (if supabaseEnabled then [FetchAll(wallet)] else [])
    {
      isLoading := true;
      error := None;
      if supabaseEnabled {
        remoteCalls := remoteCalls + [FetchAll(wallet)];
        if fetched.Some? {
          var rows := fetched.value;
          var converted := seq(|rows|, i requires 0 <= i < |rows| => DbToAppOrder(rows[i]));
          orders := converted;
          cache := Some(converted);
        } else {
          error := Some("Failed to load orders from database");
          orders := CachedOrders();
        }
      } else {
        orders := CachedOrders();
      }
      isLoading := false;
    }

    /** A realtime event (only delivered when the remote table is on). */
    method OnRealtime(e: RealtimeEvent)
      modifies this
      ensures orders == ApplyEvent(old(orders), e) && CacheInSync()
      ensures isLoading == old(isLoading) && error == old(error) && remoteCalls == old(remoteCalls)
    {
      orders := ApplyEvent(orders, e);
      cache := Some(orders);
    }

    /** `addOrder`: prepended locally without deduplication, kept whatever
        the remote create answers, and always reported as saved. */
    method AddOrder(o: HookOrder) returns (saved: bool)
      modifies this
      ensures saved
      ensures orders == [o] + old(orders) && CacheInSync()
      ensures remoteCalls == old(remoteCalls) + (if supabaseEnabled then [Create(AppToDbOrder(o))] else [])
      ensures isLoading == old(isLoading) && error == old(error)
    {
      orders := [o] + orders;
      cache := Some(orders);
      if supabaseEnabled {
        remoteCalls := remoteCalls + [Create(AppToDbOrder(o))];
      }
      saved := true;
    }

    /** `updateOrder`: merges the patch into the matching orders only and
        sends the truthy status / tx hash / steps remotely. */
    method UpdateOrder(id: string, p: OrderPatch) returns (saved: bool)
      modifies this
      ensures saved
      ensures orders == MergeInto(old(orders), id, p) && CacheInSync()
      ensures remoteCalls == old(remoteCalls) + (if supabaseEnabled then [Update(id, RemotePatch(p))] else [])
      ensures isLoading == old(isLoading) && error == old(error)
    {
      orders := MergeInto(orders, id, p);
      cache := Some(orders);
      if supabaseEnabled {
        remoteCalls := remoteCalls + [Update(id, RemotePatch(p))];
      }
      saved := true;
    }

    method UpdateOrderStatus(id: string, status: HookStatus) returns (saved: bool)
      modifies this
      ensures saved
      ensures |orders| == |old(orders)|
      ensures forall i :: 0 <= i < |orders| ==>
        orders[i] == if old(orders)[i].id == id then old(orders)[i].(status := status) else old(orders)[i]
      ensures CacheInSync() && isLoading == old(isLoading) && error == old(error)
      ensures remoteCalls == old(remoteCalls) + (if supabaseEnabled then [Update(id, DbPatch(Some(status), None, None))] else [])
    {
      var patch := OrderPatch(None, None, Some(status), None, None, None, None, None, None, None);
      saved := UpdateOrder(id, patch);
    }

    method UpdateOrderSteps(id: string, steps: seq<ServerStep>) returns (saved: bool)
      modifies this
      ensures saved
      ensures |orders| == |old(orders)|
      ensures forall i :: 0 <= i < |orders| ==>
        orders[i] == if old(orders)[i].id == id then old(orders)[i].(steps := steps) else old(orders)[i]
      ensures CacheInSync() && isLoading == old(isLoading) && error == old(error)
      ensures remoteCalls == old(remoteCalls) + (if supabaseEnabled then [Update(id, DbPatch(None, None, Some(steps)))] else [])
    {
      var patch := OrderPatch(None, None, None, None, None, None, None, None, Some(steps), None);
      saved := UpdateOrder(id, patch);
    }

    /** The exposed `setOrders`, which also writes the cache. */
    method SetOrders(updated: seq<HookOrder>)
      modifies this
      ensures orders == updated && CacheInSync()
      ensures isLoading == old(isLoading) && error == old(error) && remoteCalls == old(remoteCalls)
    {
      orders := updated;
      cache := Some(updated);
    }
  }
}
