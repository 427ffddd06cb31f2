/** The operator analytics (src/hooks/useAnalytics.ts) over the orders of
    the chosen period.  Date arithmetic is outside the model: the caller
    supplies the orders of the current and of the previous period, and
    `dayOf` gives how many days before today an order was placed. */
module Analytics {
  import opened Wrappers
  import opened Types
  import OrderStorage

  datatype Period = Last24h | Last7d | Last30d | AllTime

  function DaysToShow(p: Period): nat {
    match p
    case Last24h => 1
    case Last7d => 7
    case Last30d => 30
    case AllTime => 14
  }

  // ---------------------------------------------------------------------
  // Daily series

  datatype DailyPoint = DailyPoint(daysAgo: nat, orders: nat, volume: real)

  function OnDay(orders: seq<Order>, dayOf: Order -> int, d: int): (r: seq<Order>)
    ensures |r| <= |orders|
    ensures forall o :: o in r <==> o in orders && dayOf(o) == d
  {
    if orders == [] then []
    else (if dayOf(orders[0]) == d then [orders[0]] else []) + OnDay(orders[1..], dayOf, d)
  }

  /** The daily series of a period: one point per day, oldest first,
      ending today, each with that day's order count and volume. */
  ghost predicate IsDailySeries(points: seq<DailyPoint>, filtered: seq<Order>, period: Period, dayOf: Order -> int) {
    && |points| == DaysToShow(period)
    && forall k :: 0 <= k < |points| ==>
      && points[k].daysAgo == DaysToShow(period) - 1 - k
      && points[k].orders == |OnDay(filtered, dayOf, points[k].daysAgo)|
      && points[k].volume == OrderStorage.TotalValue(OnDay(filtered, dayOf, points[k].daysAgo))
  }

  /** One point per day, oldest first, ending today. */
  method DailyOrders(filtered: seq<Order>, period: Period, dayOf: Order -> int) returns (points: seq<DailyPoint>)
    ensures IsDailySeries(points, filtered, period, dayOf)
  {
    points := [];
    var i: int := DaysToShow(period) - 1;
    while i >= 0
      invariant -1 <= i < DaysToShow(period)
      invariant |points| == DaysToShow(period) - 1 - i
      invariant forall k :: 0 <= k < |points| ==>
        && points[k].daysAgo == DaysToShow(period) - 1 - k
        && points[k].orders == |OnDay(filtered, dayOf, points[k].daysAgo)|
        && points[k].volume == OrderStorage.TotalValue(OnDay(filtered, dayOf, points[k].daysAgo))
    {
      var dayOrders := OnDay(filtered, dayOf, i);
      points := points + [DailyPoint(i, |dayOrders|, OrderStorage.TotalValue(dayOrders))];
      i := i - 1;
    }
  }

  // ---------------------------------------------------------------------
  // Group-by

  /** An entry of the grouping map: its key, how many orders, their summed
      total and the first non-empty product image. */
  datatype Group = Group(key: string, orders: nat, revenue: real, image: string)

  function FindKey(groups: seq<Group>, key: string): (r: Option<nat>)
    ensures r.Some? ==> r.value < |groups| && groups[r.value].key == key
    ensures r.None? ==> forall i :: 0 <= i < |groups| ==> groups[i].key != key
  {
    if groups == [] then None
    else if groups[0].key == key then Some(0)
    else match FindKey(groups[1..], key)
      case None => None
      case Some(i) => Some(i + 1)
  }

  /** `map.set(key, ...)` after `map.get(key) || {orders: 0, revenue: 0,
      image: order.productImage}`; a new key goes last, as in a JavaScript
      Map. */
  function AddToGroups(groups: seq<Group>, key: string, o: Order): seq<Group> {
    match FindKey(groups, key)
    case Some(i) =>
      var g := groups[i];
      groups[i := Group(key, g.orders + 1, g.revenue + o.totalUsdc, if g.image != "" then g.image else o.productImage)]
    case None => groups + [Group(key, 1, o.totalUsdc, o.productImage)]
  }

  function GroupBy(orders: seq<Order>, keyOf: Order -> string): seq<Group> {
    if orders == [] then []
    else AddToGroups(GroupBy(orders[..|orders| - 1], keyOf), keyOf(orders[|orders| - 1]), orders[|orders| - 1])
  }

  function CountKey(orders: seq<Order>, keyOf: Order -> string, key: string): nat {
    if orders == [] then 0
    else CountKey(orders[..|orders| - 1], keyOf, key) + (if keyOf(orders[|orders| - 1]) == key then 1 else 0)
  }

  function RevenueKey(orders: seq<Order>, keyOf: Order -> string, key: string): real {
    if orders == [] then 0.0
    else RevenueKey(orders[..|orders| - 1], keyOf, key)
         + (if keyOf(orders[|orders| - 1]) == key then orders[|orders| - 1].totalUsdc else 0.0)
  }

  function SumCounts(groups: seq<Group>): nat {
    if groups == [] then 0 else SumCounts(groups[..|groups| - 1]) + groups[|groups| - 1].orders
  }

  predicate DistinctKeys(groups: seq<Group>) {
    forall i, j :: 0 <= i < j < |groups| ==> groups[i].key != groups[j].key
  }

  lemma {:induction false} SumCountsUpdate(groups: seq<Group>, i: nat, g: Group)
    requires i < |groups|
    ensures SumCounts(groups[i := g]) + groups[i].orders == SumCounts(groups) + g.orders
  {
    if i < |groups| - 1 {
      assert groups[i := g][..|groups| - 1] == groups[..|groups| - 1][i := g];
      SumCountsUpdate(groups[..|groups| - 1], i, g);
    } else {
      assert groups[i := g][..|groups| - 1] == groups[..|groups| - 1];
    }
  }

  function Keys(groups: seq<Group>): set<string> {
    set g | g in groups :: g.key
  }

  function KeysOf(orders: seq<Order>, keyOf: Order -> string): set<string> {
    set o | o in orders :: keyOf(o)
  }

  /** One entry per key that occurs in the orders, and no other. */
  lemma {:induction false} GroupByKeys(orders: seq<Order>, keyOf: Order -> string)
    ensures DistinctKeys(GroupBy(orders, keyOf))
    ensures Keys(GroupBy(orders, keyOf)) == KeysOf(orders, keyOf)
  {
    if orders != [] {
      var init := orders[..|orders| - 1];
      var last := orders[|orders| - 1];
      var prev := GroupBy(init, keyOf);
      GroupByKeys(init, keyOf);
      assert orders == init + [last];
      assert KeysOf(orders, keyOf) == KeysOf(init, keyOf) + {keyOf(last)};
      var groups := GroupBy(orders, keyOf);
      match FindKey(prev, keyOf(last))
      case Some(i) =>
        KeysUpdate(prev, i, groups[i]);
      case None =>
        assert keyOf(last) !in Keys(prev);
        KeysAppend(prev, groups[|groups| - 1]);
    }
  }

  /** Replacing an entry by one with the same key changes no key. */
  lemma KeysUpdate(groups: seq<Group>, i: nat, g: Group)
    requires i < |groups| && g.key == groups[i].key
    ensures Keys(groups[i := g]) == Keys(groups)
    ensures DistinctKeys(groups) ==> DistinctKeys(groups[i := g])
  {
    var updated := groups[i := g];
    forall x | x in Keys(updated) ensures x in Keys(groups) {
      var k :| 0 <= k < |updated| && updated[k].key == x;
      assert groups[k] in groups;
    }
    forall x | x in Keys(groups) ensures x in Keys(updated) {
      var k :| 0 <= k < |groups| && groups[k].key == x;
      assert updated[k] in updated;
    }
  }

  /** Appending an entry adds its key. */
  lemma KeysAppend(groups: seq<Group>, g: Group)
    ensures Keys(groups + [g]) == Keys(groups) + {g.key}
    ensures DistinctKeys(groups) && g.key !in Keys(groups) ==> DistinctKeys(groups + [g])
  {
    var appended := groups + [g];
    if DistinctKeys(groups) && g.key !in Keys(groups) {
      forall i, j | 0 <= i < j < |appended| ensures appended[i].key != appended[j].key {
        if j == |groups| {
          assert groups[i] in groups;
        }
      }
    }
  }

  /** Each entry holds its key's order count and summed total. */
  lemma {:induction false} GroupByCounts(orders: seq<Order>, keyOf: Order -> string)
    ensures var groups := GroupBy(orders, keyOf);
      forall i :: 0 <= i < |groups| ==>
        groups[i].orders == CountKey(orders, keyOf, groups[i].key)
        && groups[i].revenue == RevenueKey(orders, keyOf, groups[i].key)
  {
    if orders != [] {
      var init := orders[..|orders| - 1];
      var last := orders[|orders| - 1];
      var prev := GroupBy(init, keyOf);
      GroupByCounts(init, keyOf);
      GroupByKeys(init, keyOf);
      var groups := GroupBy(orders, keyOf);
      match FindKey(prev, keyOf(last))
      case Some(i) =>
      case None =>
        assert keyOf(last) !in Keys(prev);
        CountAbsentKey(init, keyOf, keyOf(last));
    }
  }

  lemma {:induction false} CountAbsentKey(orders: seq<Order>, keyOf: Order -> string, key: string)
    requires key !in KeysOf(orders, keyOf)
    ensures CountKey(orders, keyOf, key) == 0 && RevenueKey(orders, keyOf, key) == 0.0
  {
    if orders != [] {
      var init := orders[..|orders| - 1];
      assert KeysOf(init, keyOf) <= KeysOf(orders, keyOf);
      CountAbsentKey(init, keyOf, key);
    }
  }

  /** The counts of all entries add up to the number of orders. */
  lemma {:induction false} GroupByTotal(orders: seq<Order>, keyOf: Order -> string)
    ensures SumCounts(GroupBy(orders, keyOf)) == |orders|
  {
    if orders != [] {
      var init := orders[..|orders| - 1];
      var last := orders[|orders| - 1];
      var prev := GroupBy(init, keyOf);
      GroupByTotal(init, keyOf);
      var groups := GroupBy(orders, keyOf);
      match FindKey(prev, keyOf(last))
      case Some(i) =>
        SumCountsUpdate(prev, i, groups[i]);
      case None =>
        assert groups[..|groups| - 1] == prev;
    }
  }

  // ---------------------------------------------------------------------
  // Ranking

  predicate SortedDesc(s: seq<Group>, score: Group -> real) {
    forall i, j :: 0 <= i < j < |s| ==> score(s[i]) >= score(s[j])
  }

  /** Inserting after every entry with a larger score, before the rest. */
  function InsertDesc(g: Group, s: seq<Group>, score: Group -> real): (r: seq<Group>)
    requires SortedDesc(s, score)
    ensures |r| == |s| + 1 && multiset(r) == multiset(s) + multiset{g}
    ensures SortedDesc(r, score)
  {
    if s == [] || score(g) >= score(s[0]) then
      ConsSorted(g, s, score);
      [g] + s
    else
      TailSorted(s, score);
      var rest := InsertDesc(g, s[1..], score);
      InsertBehind(g, s, rest, score);
      [s[0]] + rest
  }

  /** Putting the head back in front of the insertion into the tail. */
  lemma InsertBehind(g: Group, s: seq<Group>, rest: seq<Group>, score: Group -> real)
    requires s != [] && score(g) < score(s[0]) && SortedDesc(s, score)
    requires multiset(rest) == multiset(s[1..]) + multiset{g} && SortedDesc(rest, score)
    ensures multiset([s[0]] + rest) == multiset(s) + multiset{g}
    ensures SortedDesc([s[0]] + rest, score)
  {
    assert s == [s[0]] + s[1..];
    assert rest != [] by { assert g in multiset(rest); }
    assert rest[0] in multiset(rest);
    assert score(s[0]) >= score(rest[0]) by {
      if rest[0] != g {
        assert rest[0] in multiset(s[1..]);
        var k :| 0 <= k < |s[1..]| && s[1..][k] == rest[0];
        assert s[k + 1] == rest[0];
      }
    }
    ConsSorted(s[0], rest, score);
  }

  lemma TailSorted(s: seq<Group>, score: Group -> real)
    requires SortedDesc(s, score) && s != []
    ensures SortedDesc(s[1..], score)
  {
    forall i, j | 0 <= i < j < |s| - 1
      ensures score(s[1..][i]) >= score(s[1..][j])
    {
      assert s[1..][i] == s[i + 1] && s[1..][j] == s[j + 1];
    }
  }

  /** A descending list stays descending under a head that scores at
      least as much as its first entry. */
  lemma ConsSorted(x: Group, s: seq<Group>, score: Group -> real)
    requires SortedDesc(s, score) && (s == [] || score(x) >= score(s[0]))
    ensures SortedDesc([x] + s, score)
  {
    var r := [x] + s;
    forall i, j | 0 <= i < j < |r|
      ensures score(r[i]) >= score(r[j])
    {
      if i == 0 {
        assert r[j] == s[j - 1];
        assert score(s[0]) >= score(s[j - 1]) || j == 1;
      } else {
        assert r[i] == s[i - 1] && r[j] == s[j - 1];
      }
    }
  }

  /** `.sort((a, b) => score(b) - score(a))`: descending, and a
      permutation of its input. */
  function SortDesc(gs: seq<Group>, score: Group -> real): (r: seq<Group>)
    ensures multiset(r) == multiset(gs)
    ensures SortedDesc(r, score)
  {
    if gs == [] then []
    else
      assert gs == [gs[0]] + gs[1..];
      InsertDesc(gs[0], SortDesc(gs[1..], score), score)
  }

  function Revenue(g: Group): real { g.revenue }
  function OrderCount(g: Group): real { g.orders as real }

  function Top5(s: seq<Group>): (r: seq<Group>)
    ensures |r| <= 5 && |r| <= |s| && r == s[..|r|]
    ensures |s| >= 5 ==> |r| == 5
    ensures |s| < 5 ==> r == s
  {
    if |s| <= 5 then s else s[..5]
  }

  /** The state key: a missing state counts as 'Unknown'. */
  function StateKey(o: Order): string {
    if o.shippingAddress.state != "" then o.shippingAddress.state else "Unknown"
  }

  function ProductKey(o: Order): string {
    o.productName
  }

  /** The forEach that fills a grouping map. */
  method GroupOrders(orders: seq<Order>, keyOf: Order -> string) returns (groups: seq<Group>)
    ensures groups == GroupBy(orders, keyOf)
  {
    groups := [];
    for k := 0 to |orders|
      invariant groups == GroupBy(orders[..k], keyOf)
    {
      assert orders[..k + 1][..k] == orders[..k];
      var o := orders[k];
      var key := keyOf(o);
      ghost var prev := groups;
      var found := FindKey(groups, key);
      if found.Some? {
        var g := groups[found.value];
        groups := groups[found.value := Group(key, g.orders + 1, g.revenue + o.totalUsdc,
                                              if g.image != "" then g.image else o.productImage)];
      } else {
        groups := groups + [Group(key, 1, o.totalUsdc, o.productImage)];
      }
      assert groups == AddToGroups(prev, key, o);
      assert GroupBy(orders[..k + 1], keyOf) == AddToGroups(GroupBy(orders[..k], keyOf), key, o);
    }
    assert orders[..|orders|] == orders;
  }

  // ---------------------------------------------------------------------
  // Ratios and trends

  function AverageOrderValue(totalOrders: nat, totalVolume: real): (r: real)
    ensures totalOrders == 0 ==> r == 0.0
    ensures totalOrders > 0 ==> r * totalOrders as real == totalVolume
  {
    if totalOrders > 0 then totalVolume / totalOrders as real else 0.0
  }

  function FulfillmentRate(delivered: nat, totalOrders: nat): (r: real)
    ensures totalOrders == 0 ==> r == 0.0
    ensures totalOrders > 0 ==> r * totalOrders as real == 100.0 * delivered as real
    ensures delivered <= totalOrders ==> 0.0 <= r <= 100.0
  {
    if totalOrders > 0 then (delivered as real / totalOrders as real) * 100.0 else 0.0
  }

  /** The percentage change against the previous period, with the rule
      for an empty previous period. */
  function Trend(current: real, previous: real): (r: real)
    ensures previous > 0.0 ==> r * previous == (current - previous) * 100.0
    ensures previous <= 0.0 ==> r == if current > 0.0 then 100.0 else 0.0
    ensures r > 0.0 <==> (if previous > 0.0 then current > previous else current > 0.0)
    ensures r < 0.0 <==> previous > 0.0 && current < previous
  {
    if previous > 0.0 then ((current - previous) / previous) * 100.0
    else if current > 0.0 then 100.0 else 0.0
  }

  datatype StatusBreakdown = StatusBreakdown(pending: nat, processing: nat, shipped: nat, delivered: nat)

  datatype StateRow = StateRow(state: string, orders: nat)

  datatype AnalyticsData = AnalyticsData(
    totalOrders: nat,
    totalVolume: real,
    averageOrderValue: real,
    conversionRate: real,
    statusBreakdown: StatusBreakdown,
    dailyOrders: seq<DailyPoint>,
    topProducts: seq<Group>,
    topStates: seq<StateRow>,
    fulfillmentRate: real,
    avgFulfillmentTime: real,
    ordersTrend: real,
    volumeTrend: real)

  function StateRows(gs: seq<Group>): (r: seq<StateRow>)
    ensures |r| == |gs|
    ensures forall i :: 0 <= i < |gs| ==> r[i] == StateRow(gs[i].key, gs[i].orders)
  {
    if gs == [] then [] else [StateRow(gs[0].key, gs[0].orders)] + StateRows(gs[1..])
  }

  /** The analytics of a period.  `r1` and `r2` are the two
      `Math.random()` draws of the simulated conversion rate and
      fulfillment time. */
  method UseAnalytics(filtered: seq<Order>, previous: seq<Order>, period: Period, dayOf: Order -> int,
                      r1: real, r2: real)
    returns (a: AnalyticsData)
    requires 0.0 <= r1 < 1.0 && 0.0 <= r2 < 1.0
    ensures a.totalOrders == |filtered| && a.totalVolume == OrderStorage.TotalValue(filtered)
    ensures a.averageOrderValue == AverageOrderValue(a.totalOrders, a.totalVolume)
    ensures a.totalOrders == 0 ==> a.conversionRate == 0.0 && a.avgFulfillmentTime == 0.0
    ensures a.totalOrders > 0 ==> 3.2 <= a.conversionRate < 5.2 && 24.0 <= a.avgFulfillmentTime < 72.0
    ensures a.statusBreakdown == StatusBreakdown(
      OrderStorage.CountStatus(filtered, OrderStatus.Pending), OrderStorage.CountStatus(filtered, Processing),
      OrderStorage.CountStatus(filtered, Shipped), OrderStorage.CountStatus(filtered, Delivered))
    ensures IsDailySeries(a.dailyOrders, filtered, period, dayOf)
    ensures a.topProducts == Top5(SortDesc(GroupBy(filtered, ProductKey), Revenue))
    ensures a.topStates == StateRows(Top5(SortDesc(GroupBy(filtered, StateKey), OrderCount)))
    ensures a.fulfillmentRate == FulfillmentRate(a.statusBreakdown.delivered, a.totalOrders)
    ensures 0.0 <= a.fulfillmentRate <= 100.0
    ensures a.ordersTrend == Trend(|filtered| as real, |previous| as real)
    ensures a.volumeTrend == Trend(a.totalVolume, OrderStorage.TotalValue(previous))
  {
    var totalOrders := |filtered|;
    var totalVolume := OrderStorage.TotalValue(filtered);
    var conversionRate := if totalOrders > 0 then 3.2 + r1 * 2.0 else 0.0;
    var breakdown := StatusBreakdown(
      OrderStorage.CountStatus(filtered, OrderStatus.Pending), OrderStorage.CountStatus(filtered, Processing),
      OrderStorage.CountStatus(filtered, Shipped), OrderStorage.CountStatus(filtered, Delivered));
    var daily := DailyOrders(filtered, period, dayOf);
    var products := GroupOrders(filtered, ProductKey);
    var states := GroupOrders(filtered, StateKey);
    var fulfillmentRate := FulfillmentRate(breakdown.delivered, totalOrders);
    var avgTime := if totalOrders > 0 then 24.0 + r2 * 48.0 else 0.0;
    a := AnalyticsData(totalOrders, totalVolume, AverageOrderValue(totalOrders, totalVolume), conversionRate,
                       breakdown, daily, Top5(SortDesc(products, Revenue)),
                       StateRows(Top5(SortDesc(states, OrderCount))), fulfillmentRate, avgTime,
                       Trend(totalOrders as real, |previous| as real),
                       Trend(totalVolume, OrderStorage.TotalValue(previous)));
  }

  /** The status breakdown counts every order of the period exactly once. */
  lemma BreakdownCoversPeriod(filtered: seq<Order>)
    ensures var b := StatusBreakdown(
      OrderStorage.CountStatus(filtered, OrderStatus.Pending), OrderStorage.CountStatus(filtered, Processing),
      OrderStorage.CountStatus(filtered, Shipped), OrderStorage.CountStatus(filtered, Delivered));
      b.pending + b.processing + b.shipped + b.delivered == |filtered|
  {
    OrderStorage.CountsSum(filtered);
  }

  /** The top lists hold at most five entries, best first, each a real
      group with its true count. */
  lemma TopListsAreRankedGroups(filtered: seq<Order>, keyOf: Order -> string, score: Group -> real)
    ensures var top := Top5(SortDesc(GroupBy(filtered, keyOf), score));
      && |top| <= 5
      && SortedDesc(top, score)
      && (forall i :: 0 <= i < |top| ==>
            top[i] in GroupBy(filtered, keyOf)
            && top[i].orders == CountKey(filtered, keyOf, top[i].key))
  {
    var groups := GroupBy(filtered, keyOf);
    GroupByCounts(filtered, keyOf);
    var sorted := SortDesc(groups, score);
    var top := Top5(sorted);
    forall i | 0 <= i < |top|
      ensures top[i] in groups && top[i].orders == CountKey(filtered, keyOf, top[i].key)
    {
      assert top[i] == sorted[i];
      assert sorted[i] in multiset(groups);
      var k :| 0 <= k < |groups| && groups[k] == top[i];
    }
  }
}
