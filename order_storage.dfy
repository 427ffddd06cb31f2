/** The browser-local order store (src/hooks/useOrderStorage.ts): a list
    of orders mirrored to the 'soltok_orders' entry, with list updates, a
    validated import that merges by id, and summary statistics. */
module OrderStorage {
  import opened Wrappers
  import opened Types

  /** `Partial<Order>`: a present field overrides the record's. */
  datatype OrderPatch = OrderPatch(
    id: Option<string>,
    productName: Option<string>,
    productImage: Option<string>,
    productPrice: Option<real>,
    totalUsdc: Option<real>,
    status: Option<OrderStatus>,
    txHash: Option<string>,
    shippingAddress: Option<ShippingAddress>,
    customerEmail: Option<Option<string>>,
    timestamp: Option<string>,
    steps: Option<seq<FulfillmentStep>>,
    isDemo: Option<Option<bool>>,
    walletAddress: Option<Option<string>>,
    trackingNumber: Option<Option<string>>,
    carrier: Option<Option<string>>)

  const EMPTY_PATCH := OrderPatch(None, None, None, None, None, None, None, None, None, None, None, None, None, None, None)

  /** `{ ...o, ...updates }`. */
  function Merge(o: Order, p: OrderPatch): (m: Order)
    ensures p == EMPTY_PATCH ==> m == o
    ensures p.status.Some? ==> m.status == p.status.value
    ensures p.status.None? ==> m.status == o.status
    ensures p.steps.None? ==> m.steps == o.steps
  {
    Order(p.id.GetOr(o.id), p.productName.GetOr(o.productName), p.productImage.GetOr(o.productImage),
          p.productPrice.GetOr(o.productPrice), p.totalUsdc.GetOr(o.totalUsdc), p.status.GetOr(o.status),
          p.txHash.GetOr(o.txHash), p.shippingAddress.GetOr(o.shippingAddress),
          p.customerEmail.GetOr(o.customerEmail), p.timestamp.GetOr(o.timestamp), p.steps.GetOr(o.steps),
          p.isDemo.GetOr(o.isDemo), p.walletAddress.GetOr(o.walletAddress),
          p.trackingNumber.GetOr(o.trackingNumber), p.carrier.GetOr(o.carrier))
  }

  function RemoveOrder(orders: seq<Order>, id: string): (r: seq<Order>)
    ensures |r| <= |orders|
    ensures forall o :: o in r <==> o in orders && o.id != id
  {
    if orders == [] then []
    else if orders[0].id == id then RemoveOrder(orders[1..], id)
    else [orders[0]] + RemoveOrder(orders[1..], id)
  }

  /** Removing an id no order has leaves the list as it was. */
  lemma {:induction false} RemoveAbsentIsNoop(orders: seq<Order>, id: string)
    requires forall i :: 0 <= i < |orders| ==> orders[i].id != id
    ensures RemoveOrder(orders, id) == orders
  {
    if orders != [] {
      RemoveAbsentIsNoop(orders[1..], id);
    }
  }

  function Ids(orders: seq<Order>): (ids: set<string>)
    ensures forall o :: o in orders ==> o.id in ids
    ensures forall id :: id in ids ==> exists o :: o in orders && o.id == id
  {
    set o | o in orders :: o.id
  }

  /** An element of an imported file.  `statusPresent` is false when its
      status is missing, null or empty. */
  datatype ImportedRecord = ImportedRecord(order: Order, statusPresent: bool)

  /** What `JSON.parse` made of the file. */
  datatype ImportedJson = Unparseable(message: string) | NotAnArray | Items(records: seq<ImportedRecord>)

  predicate WellFormed(r: ImportedRecord) {
    r.order.id != "" && r.order.timestamp != "" && r.statusPresent
  }

  /** The orders an imported file carries, in file order. */
  function Carried(records: seq<ImportedRecord>): (r: seq<Order>)
    ensures |r| == |records|
    ensures forall k :: 0 <= k < |records| ==> r[k] == records[k].order
  {
    if records == [] then [] else [records[0].order] + Carried(records[1..])
  }

  /** The imported orders whose ids are not already in `existing`, in file
      order. */
  function Fresh(records: seq<ImportedRecord>, existing: set<string>): (r: seq<Order>)
    ensures |r| <= |records|
    ensures forall o :: o in r <==> o in Carried(records) && o.id !in existing
  {
    if records == [] then []
    else
      var rest := Fresh(records[1..], existing);
      assert Carried(records) == [records[0].order] + Carried(records[1..]);
      if records[0].order.id in existing then rest else [records[0].order] + rest
  }

  const INVALID_FORMAT := "Invalid format: expected array of orders"
  const INVALID_ORDER := "Invalid order format"

  /** Totals over the list: its length, the count per status and the summed
      `totalUsdc`. */
  datatype Stats = Stats(total: nat, byStatus: map<OrderStatus, nat>, totalValue: real)

  function CountStatus(orders: seq<Order>, s: OrderStatus): (n: nat)
    ensures n <= |orders|
  {
    if orders == [] then 0
    else (if orders[0].status == s then 1 else 0) + CountStatus(orders[1..], s)
  }

  function TotalValue(orders: seq<Order>): real {
    if orders == [] then 0.0 else orders[0].totalUsdc + TotalValue(orders[1..])
  }

  const STATUSES: set<OrderStatus> := {OrderStatus.Pending, Processing, Shipped, Delivered}

  /** `getStats`: only statuses that occur appear in `byStatus`. */
  function GetStats(orders: seq<Order>): (st: Stats)
    ensures st.total == |orders|
    ensures forall s :: s in st.byStatus <==> CountStatus(orders, s) > 0
    ensures forall s :: s in st.byStatus ==> st.byStatus[s] == CountStatus(orders, s)
  {
    StatusesComplete();
    Stats(|orders|, map s | s in STATUSES && CountStatus(orders, s) > 0 :: CountStatus(orders, s), TotalValue(orders))
  }

  lemma StatusesComplete()
    ensures forall s: OrderStatus :: s in STATUSES
  {
    forall s: OrderStatus
      ensures s in STATUSES
    {
      match s
      case Pending =>
      case Processing =>
      case Shipped =>
      case Delivered =>
    }
  }

  function Counted(st: Stats, s: OrderStatus): nat {
    if s in st.byStatus then st.byStatus[s] else 0
  }

  /** The per-status counts add up to the total. */
  lemma {:induction false} CountsSumToTotal(orders: seq<Order>)
    ensures var st := GetStats(orders);
      Counted(st, OrderStatus.Pending) + Counted(st, Processing) + Counted(st, Shipped) + Counted(st, Delivered)
      == st.total
  {
    CountsSum(orders);
  }

  lemma {:induction false} CountsSum(orders: seq<Order>)
    ensures CountStatus(orders, OrderStatus.Pending) + CountStatus(orders, Processing)
            + CountStatus(orders, Shipped) + CountStatus(orders, Delivered) == |orders|
  {
    if orders != [] {
      CountsSum(orders[1..]);
    }
  }

  class OrderStorage {
    var orders: seq<Order>
    /** The persisted 'soltok_orders' entry. */
    var persisted: Option<seq<Order>>

    /** The effect that persists the list has run. */
    predicate Persisted()
      reads this
    {
      persisted == Some(orders)
    }

    /** The list starts as the saved one, or empty when there is none or
        it does not parse. */
    constructor (saved: Option<seq<Order>>)
      ensures orders == saved.GetOr([]) && Persisted()
    {
      orders := saved.GetOr([]);
      persisted := Some(saved.GetOr([]));
    }

    method AddOrder(o: Order)
      modifies this
      ensures orders == [o] + old(orders) && Persisted()
    {
      orders := [o] + orders;
      persisted := Some(orders);
    }

    method UpdateOrder(id: string, p: OrderPatch)
      modifies this
      ensures |orders| == |old(orders)| && Persisted()
      ensures forall i :: 0 <= i < |orders| ==>
        orders[i] == if old(orders)[i].id == id then Merge(old(orders)[i], p) else old(orders)[i]
    {
      orders := seq(|orders|, i requires 0 <= i < |orders| reads this =>
        if orders[i].id == id then Merge(orders[i], p) else orders[i]);
      persisted := Some(orders);
    }

    method RemoveOrderById(id: string)
      modifies this
      ensures orders == RemoveOrder(old(orders), id) && Persisted()
    {
      orders := RemoveOrder(orders, id);
      persisted := Some(orders);
    }

    method ClearOrders()
      modifies this
      ensures orders == [] && Persisted()
    {
      orders := [];
      persisted := Some([]);
    }

    /** `importOrders`.  A file that does not parse, is not an array, or
        has an element missing its id, timestamp or status is rejected and
        nothing changes.  Otherwise the orders with new ids go in front, in
        file order, and the answer is the number of elements in the file. */
    method ImportOrders(json: ImportedJson) returns (r: Result<nat, string>)
      modifies this
      ensures json.Unparseable? ==> r == Err(json.message)
      ensures json.NotAnArray? ==> r == Err(INVALID_FORMAT)
      ensures json.Items? && (exists k :: 0 <= k < |json.records| && !WellFormed(json.records[k])) ==>
        r == Err(INVALID_ORDER)
      ensures r.Err? ==> orders == old(orders) && persisted == old(persisted)
      ensures r.Ok? <==> json.Items? && forall k :: 0 <= k < |json.records| ==> WellFormed(json.records[k])
      ensures r.Ok? ==>
        && r.value == |json.records|
        && orders == Fresh(json.records, Ids(old(orders))) + old(orders)
        && Persisted()
    {
      if json.Unparseable? {
        return Err(json.message);
      }
      if json.NotAnArray? {
        return Err(INVALID_FORMAT);
      }
      var records := json.records;
      for k := 0 to |records|
        invariant forall j :: 0 <= j < k ==> WellFormed(records[j])
      {
        if !WellFormed(records[k]) {
          return Err(INVALID_ORDER);
        }
      }
      orders := Fresh(records, Ids(orders)) + orders;
      persisted := Some(orders);
      r := Ok(|records|);
    }

    function Stats(): Stats
      reads this
    {
      GetStats(orders)
    }
  }

  /** Importing keeps every existing order, adds no id twice against the
      existing list, and never adds more than the file holds. */
  lemma ImportMergeProperties(records: seq<ImportedRecord>, existing: seq<Order>)
    ensures var merged := Fresh(records, Ids(existing)) + existing;
      && merged[|merged| - |existing|..] == existing
      && (forall i :: 0 <= i < |merged| - |existing| ==> merged[i].id !in Ids(existing))
      && |existing| <= |merged| <= |existing| + |records|
  {
    var added := Fresh(records, Ids(existing));
    forall i | 0 <= i < |added|
      ensures added[i].id !in Ids(existing)
    {
      assert added[i] in added;
    }
  }
}
