/**
 * The admin dashboard (`src/pages/admin/Dashboard.tsx`): the statistics
 * computed from the fetched orders, the recent-orders slice and the widths
 * of the status distribution bars.
 */
module Dashboard {
  import opened Catalog
  import Seqs

  datatype Stats = Stats(
    totalOrders: int, totalRevenue: real,
    pendingOrders: int, deliveredOrders: int, cancelledOrders: int,
    averageOrderValue: real)

  const InitialStats := Stats(0, 0.0, 0, 0, 0, 0.0)

  function WithStatus(status: string): Order -> bool {
    (o: Order) => o.status == status
  }

  /** `orders.filter(order => order.status === status).length`. */
  function CountStatus(orders: seq<Order>, status: string): nat {
    |Seqs.Filter(orders, WithStatus(status))|
  }

  /** `orders.reduce((sum, order) => sum + order.total, 0)`. */
  function Revenue(orders: seq<Order>): real
    decreases |orders|
  {
    if |orders| == 0 then 0.0 else Revenue(orders[..|orders| - 1]) + orders[|orders| - 1].total
  }

  /** The statistics of a non-empty order list. */
  function Computed(orders: seq<Order>): Stats
    requires |orders| > 0
  {
    var revenue := Revenue(orders);
    Stats(|orders|, revenue,
      CountStatus(orders, "pending"), CountStatus(orders, "delivered"), CountStatus(orders, "cancelled"),
      Average(revenue, |orders|))
  }

  /** `totalRevenue / totalOrders`: the value that, times the order count, gives the revenue back. */
  function Average(revenue: real, count: int): (a: real)
    requires count > 0
    ensures a * count as real == revenue
  {
    revenue / count as real
  }

  /**
   * The statistics of a non-empty list: one order counted per element, the
   * revenue summed, and the three counted statuses within the total (the
   * average is `Average`, whose contract gives the revenue back).
   */
  lemma ComputedFacts(orders: seq<Order>)
    requires |orders| > 0
    ensures Computed(orders).totalOrders == |orders|
    ensures Computed(orders).totalRevenue == Revenue(orders)
    ensures Computed(orders).pendingOrders + Computed(orders).deliveredOrders +
      Computed(orders).cancelledOrders <= Computed(orders).totalOrders
  {
    StatusCountsBounded(orders);
  }

  /** One more order adds one to its status's count and nothing to the others. */
  lemma CountStatusAppend(orders: seq<Order>, o: Order, status: string)
    ensures CountStatus(orders + [o], status) ==
      CountStatus(orders, status) + (if o.status == status then 1 else 0)
  {
    Seqs.FilterAppend(orders, [o], WithStatus(status));
    assert [o][1..] == [];
  }

  /** A status nobody has counts 0, and a count of 0 means nobody has it. */
  lemma {:induction false} CountStatusZero(orders: seq<Order>, status: string)
    ensures CountStatus(orders, status) == 0 <==> forall i :: 0 <= i < |orders| ==> orders[i].status != status
    decreases |orders|
  {
    if |orders| > 0 {
      var init, last := orders[..|orders| - 1], orders[|orders| - 1];
      assert orders == init + [last];
      CountStatusAppend(init, last, status);
      CountStatusZero(init, status);
      if CountStatus(init, status) == 0 && last.status != status {
        forall i | 0 <= i < |orders| ensures orders[i].status != status {
          if i < |init| {
            assert orders[i] == init[i];
          }
        }
      }
    }
  }

  /** Orders have one status each, so the three counted statuses never add up to more than the orders. */
  lemma {:induction false} StatusCountsBounded(orders: seq<Order>)
    ensures CountStatus(orders, "pending") + CountStatus(orders, "delivered") +
      CountStatus(orders, "cancelled") <= |orders|
    decreases |orders|
  {
    if |orders| > 0 {
      var init, last := orders[..|orders| - 1], orders[|orders| - 1];
      assert orders == init + [last];
      CountStatusAppend(init, last, "pending");
      CountStatusAppend(init, last, "delivered");
      CountStatusAppend(init, last, "cancelled");
      StatusCountsBounded(init);
    }
  }

  /** With no negative totals, the revenue is at least the largest total. */
  lemma {:induction false} RevenueCoversEach(orders: seq<Order>, k: nat)
    requires k < |orders|
    requires forall i :: 0 <= i < |orders| ==> orders[i].total >= 0.0
    ensures orders[k].total <= Revenue(orders)
    decreases |orders|
  {
    var init := orders[..|orders| - 1];
    RevenueNonNegative(init);
    if k < |init| {
      RevenueCoversEach(init, k);
    }
  }

  lemma {:induction false} RevenueNonNegative(orders: seq<Order>)
    requires forall i :: 0 <= i < |orders| ==> orders[i].total >= 0.0
    ensures Revenue(orders) >= 0.0
    decreases |orders|
  {
    if |orders| > 0 {
      RevenueNonNegative(orders[..|orders| - 1]);
    }
  }

  /** `recentOrders`: `orders.slice(0, 5)`, the first five orders or all of them. */
  function RecentOrders(orders: seq<Order>): (r: seq<Order>)
    ensures |r| == if |orders| < 5 then |orders| else 5
    ensures r == orders[..|r|]
  {
    Seqs.Take(orders, 5)
  }

  /** A bar's width in percent: `orders.length ? count / orders.length * 100 : 0`. */
  function Width(count: int, orderCount: int): (w: real)
    ensures orderCount == 0 ==> w == 0.0
    ensures 0 <= count <= orderCount ==> 0.0 <= w <= 100.0
  {
    if orderCount != 0 then
      var w := (count as real / orderCount as real) * 100.0;
      Fraction(count, orderCount);
      w
    else 0.0
  }

  lemma Fraction(count: int, n: int)
    requires n != 0
    ensures 0 <= count <= n ==> 0.0 <= count as real / n as real <= 1.0
  {
    if 0 <= count <= n {
      assert count as real <= n as real;
    }
  }

  class DashboardPage {
    var stats: Stats

    constructor()
      ensures stats == InitialStats
    {
      stats := InitialStats;
    }

    /**
     * The effect on `orders`: the statistics are recomputed for a non-empty
     * list; an empty one keeps whatever was shown before.
     */
    method OrdersChanged(orders: seq<Order>)
      modifies this
      ensures |orders| > 0 ==> stats == Computed(orders)
      ensures |orders| == 0 ==> stats == old(stats)
    {
      if |orders| > 0 {
        stats := Computed(orders);
      }
    }

    /**
     * The five distribution bars in page order: pending, delivered and
     * cancelled use the stored counts, processing and shipped count the
     * orders directly.
     */
    function StatusWidths(orders: seq<Order>): (ws: seq<real>)
      reads this
      ensures |ws| == 5
      ensures |orders| == 0 ==> ws == [0.0, 0.0, 0.0, 0.0, 0.0]
    {
      var n := |orders|;
      [Width(stats.pendingOrders, n), Width(CountStatus(orders, "processing"), n),
       Width(CountStatus(orders, "shipped"), n), Width(stats.deliveredOrders, n),
       Width(stats.cancelledOrders, n)]
    }
  }

  /** Directly after the effect, every bar drawn from the stored counts is between 0 and 100 percent. */
  lemma WidthsAfterRefresh(orders: seq<Order>)
    requires |orders| > 0
    ensures 0.0 <= Width(Computed(orders).pendingOrders, |orders|) <= 100.0
    ensures 0.0 <= Width(Computed(orders).deliveredOrders, |orders|) <= 100.0
    ensures 0.0 <= Width(Computed(orders).cancelledOrders, |orders|) <= 100.0
  {
    StatusCountsBounded(orders);
  }
}
