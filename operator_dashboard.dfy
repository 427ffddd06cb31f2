/** The operator dashboard's order logic (components/OperatorDashboard.tsx):
    headline counts, the status/search filter, the status flow behind
    "Advance", the release and refund handlers, and which actions an order
    offers.  The handlers' callbacks are recorded in `calls`; whether the
    awaited release or refund throws is a parameter. */
module OperatorDashboard {
  import opened Wrappers
  import opened Text
  import opened Types
  import OrderStorage

  function CountIn(orders: seq<Order>, statuses: set<OrderStatus>): (n: nat)
    ensures n <= |orders|
  {
    if orders == [] then 0
    else (if orders[0].status in statuses then 1 else 0) + CountIn(orders[1..], statuses)
  }

  datatype DashboardStats = DashboardStats(total: nat, pending: nat, completed: nat, refunded: nat, totalVolume: real)

  const OPEN: set<OrderStatus> := {OrderStatus.Pending, Processing}
  const DONE: set<OrderStatus> := {Delivered, Shipped}

  function Stats(orders: seq<Order>): DashboardStats {
    DashboardStats(|orders|, CountIn(orders, OPEN), CountIn(orders, DONE), 0, OrderStorage.TotalValue(orders))
  }

  lemma {:induction false} DisjointCountsAdd(orders: seq<Order>, a: set<OrderStatus>, b: set<OrderStatus>)
    requires a !! b
    ensures CountIn(orders, a) + CountIn(orders, b) == CountIn(orders, a + b)
  {
    if orders != [] {
      DisjointCountsAdd(orders[1..], a, b);
    }
  }

  /** 'pending' counts pending and processing orders, 'completed' counts
      shipped and delivered ones, and together they are every order. */
  lemma StatsPartitionOrders(orders: seq<Order>)
    ensures Stats(orders).pending + Stats(orders).completed == Stats(orders).total
  {
    DisjointCountsAdd(orders, OPEN, DONE);
    EveryStatusCounted(orders);
  }

  lemma {:induction false} EveryStatusCounted(orders: seq<Order>)
    ensures CountIn(orders, OPEN + DONE) == |orders|
  {
    if orders != [] {
      EveryStatusCounted(orders[1..]);
      assert orders[0].status in OPEN + DONE by {
        match orders[0].status
        case Pending =>
        case Processing =>
        case Shipped =>
        case Delivered =>
      }
    }
  }

  // ---------------------------------------------------------------------
  // Filtering

  datatype FilterStatus = All | Only(status: OrderStatus)

  /** Case-insensitive substring search over id, product name and buyer. */
  predicate MatchesSearch(o: Order, query: string) {
    query == ""
    || Contains(ToLower(o.id), ToLower(query))
    || Contains(ToLower(o.productName), ToLower(query))
    || Contains(ToLower(o.shippingAddress.fullName), ToLower(query))
  }

  predicate MatchesStatus(o: Order, f: FilterStatus) {
    f.All? || o.status == f.status
  }

  function FilteredOrders(orders: seq<Order>, f: FilterStatus, query: string): (r: seq<Order>)
    ensures |r| <= |orders|
    ensures forall o :: o in r <==> o in orders && MatchesStatus(o, f) && MatchesSearch(o, query)
  {
    if orders == [] then []
    else
      var rest := FilteredOrders(orders[1..], f, query);
      if MatchesStatus(orders[0], f) && MatchesSearch(orders[0], query) then [orders[0]] + rest else rest
  }

  /** With no status filter and no query every order is listed, in order. */
  lemma {:induction false} UnfilteredIsIdentity(orders: seq<Order>)
    ensures FilteredOrders(orders, All, "") == orders
  {
    if orders != [] {
      UnfilteredIsIdentity(orders[1..]);
    }
  }

  // ---------------------------------------------------------------------
  // Status flow and actions

  /** `statusFlow`: pending → processing → shipped → delivered. */
  function NextStatus(s: OrderStatus): (r: Option<OrderStatus>)
    ensures r.None? <==> s == Delivered
  {
    match s
    case Pending => Some(Processing)
    case Processing => Some(Shipped)
    case Shipped => Some(Delivered)
    case Delivered => None
  }

  function Rank(s: OrderStatus): nat {
    match s
    case Pending => 0
    case Processing => 1
    case Shipped => 2
    case Delivered => 3
  }

  /** Advancing moves exactly one step forward, and three advances take a
      pending order to delivered. */
  lemma AdvanceMovesForward(s: OrderStatus)
    ensures NextStatus(s).Some? ==> Rank(NextStatus(s).value) == Rank(s) + 1
    ensures NextStatus(NextStatus(NextStatus(OrderStatus.Pending).value).value) == Some(Delivered)
  {
  }

  predicate CanAdvance(s: OrderStatus) {
    s == OrderStatus.Pending || s == Processing || s == Shipped
  }

  predicate CanRelease(s: OrderStatus) {
    s == Shipped || s == Processing
  }

  predicate CanRefund(s: OrderStatus) {
    s != Delivered
  }

  /** The offered actions agree with the status flow: Advance exactly when
      there is a next status; Release only for orders that can still be
      advanced; a delivered order offers nothing. */
  lemma ActionsAgreeWithFlow(s: OrderStatus)
    ensures CanAdvance(s) <==> NextStatus(s).Some?
    ensures CanRelease(s) ==> CanAdvance(s) && CanRefund(s)
    ensures s == Delivered <==> !CanAdvance(s) && !CanRelease(s) && !CanRefund(s)
    ensures s == OrderStatus.Pending ==> !CanRelease(s) && CanRefund(s)
  {
  }

  datatype DashboardCall = ReleaseEscrow(orderId: string) | RefundOrder(orderId: string)
                         | UpdateStatus(orderId: string, status: OrderStatus)

  class Dashboard {
    var isProcessing: Option<string>
    var showActionMenu: Option<string>
    var calls: seq<DashboardCall>

    constructor ()
      ensures isProcessing.None? && showActionMenu.None? && calls == []
    {
      isProcessing := None;
      showActionMenu := None;
      calls := [];
    }

    /** Release, then mark delivered; a release that throws issues no
        status update. */
    method HandleReleaseEscrow(orderId: string, releaseThrows: bool)
      modifies this
      ensures calls == old(calls) + [ReleaseEscrow(orderId)]
                       + (if releaseThrows then [] else [UpdateStatus(orderId, Delivered)])
      ensures isProcessing.None? && showActionMenu.None?
    {
      isProcessing := Some(orderId);
      calls := calls + [ReleaseEscrow(orderId)];
      if !releaseThrows {
        calls := calls + [UpdateStatus(orderId, Delivered)];
      }
      isProcessing := None;
      showActionMenu := None;
    }

    /** A refund never updates the order's status. */
    method HandleRefund(orderId: string, refundThrows: bool)
      modifies this
      ensures calls == old(calls) + [RefundOrder(orderId)]
      ensures isProcessing.None? && showActionMenu.None?
    {
      isProcessing := Some(orderId);
      calls := calls + [RefundOrder(orderId)];
      isProcessing := None;
      showActionMenu := None;
    }

    /** Issues the next status of the flow, or nothing for a delivered
        order. */
    method HandleAdvanceStatus(orderId: string, current: OrderStatus)
      modifies this
      ensures current == Delivered ==> calls == old(calls)
      ensures current != Delivered ==>
        |calls| == |old(calls)| + 1 && calls[..|old(calls)|] == old(calls)
        && calls[|old(calls)|] == UpdateStatus(orderId, NextStatus(current).value)
        && Rank(calls[|old(calls)|].status) == Rank(current) + 1
      ensures showActionMenu.None? && isProcessing == old(isProcessing)
    {
      var next := NextStatus(current);
      if next.Some? {
        calls := calls + [UpdateStatus(orderId, next.value)];
      }
      showActionMenu := None;
    }
  }
}
