/** The provider dashboard, src/app/provider/dashboard/page.tsx: the statistics
    computed from the fetched orders and meals, the recent-orders prefix, and the
    colour class of a status badge. Statuses arrive here as plain strings. */
module ProviderDashboard {
  import opened Types

  datatype DashOrder = DashOrder(id: string, status: string, total: int, customerName: string, createdAt: string)

  datatype MenuMeal = MenuMeal(id: string, name: string)

  datatype Stats = Stats(totalOrders: nat, totalMenuItems: nat, pendingOrders: nat, totalRevenue: int)

  datatype Dashboard = Dashboard(stats: Stats, recentOrders: seq<DashOrder>, loading: bool)

  /** The page before its fetch completes. */
  const Initial: Dashboard := Dashboard(Stats(0, 0, 0, 0), [], true)

  /** How many orders are shown under "Recent Orders". */
  const RecentCount: nat := 5

  /** A fetch whose response body was read (`data` possibly missing), or one that threw. */
  datatype Response<T> = Threw | Json(data: Option<seq<T>>)

  // ------------------------------------------------------------ the pieces

  function CountStatus(orders: seq<DashOrder>, st: string): (n: nat)
    ensures n <= |orders|
  {
    if orders == [] then 0 else (if orders[0].status == st then 1 else 0) + CountStatus(orders[1..], st)
  }

  predicate IsPending(o: DashOrder)
  {
    o.status == "PLACED" || o.status == "PREPARING"
  }

  /** `orders.filter(o => o.status === "PLACED" || o.status === "PREPARING")`. */
  function PendingOf(orders: seq<DashOrder>): (r: seq<DashOrder>)
    ensures |r| <= |orders|
    ensures forall o :: o in r ==> o in orders && IsPending(o)
  {
    if orders == [] then []
    else
      var rest := PendingOf(orders[1..]);
      assert forall o :: o in rest ==> o in orders by {
        forall o | o in rest ensures o in orders {
          var i :| 0 <= i < |orders[1..]| && orders[1..][i] == o;
          assert orders[i + 1] == o;
        }
      }
      (if IsPending(orders[0]) then [orders[0]] else []) + rest
  }

  /** `orders.filter(o => o.status === "DELIVERED")`. */
  function DeliveredOf(orders: seq<DashOrder>): (r: seq<DashOrder>)
    ensures |r| <= |orders|
    ensures forall o :: o in r <==> o in orders && o.status == "DELIVERED"
  {
    if orders == [] then []
    else
      var rest := DeliveredOf(orders[1..]);
      assert forall o :: o in orders <==> o == orders[0] || o in orders[1..] by {
        assert orders == [orders[0]] + orders[1..];
      }
      (if orders[0].status == "DELIVERED" then [orders[0]] else []) + rest
  }

  /** `.reduce((acc, o) => acc + o.total, 0)`. */
  function SumTotals(orders: seq<DashOrder>): int
  {
    if orders == [] then 0 else orders[0].total + SumTotals(orders[1..])
  }

  function Revenue(orders: seq<DashOrder>): int
  {
    SumTotals(DeliveredOf(orders))
  }

  /** `orders.slice(0, 5)`. */
  function RecentOf(orders: seq<DashOrder>): seq<DashOrder>
  {
    if |orders| <= RecentCount then orders else orders[..RecentCount]
  }

  function StatsOf(orders: seq<DashOrder>, meals: seq<MenuMeal>): Stats
  {
    Stats(|orders|, |meals|, |PendingOf(orders)|, Revenue(orders))
  }

  /** `data || []`. */
  function OrEmpty<T>(data: Option<seq<T>>): seq<T>
  {
    match data case Some(xs) => xs case None => []
  }

  /** `fetchDashboardData`: on two readable responses the statistics and the recent
      prefix are set; if either fetch throws they keep their old values. Loading ends. */
  function LoadDashboard(prev: Dashboard, ordersRes: Response<DashOrder>, mealsRes: Response<MenuMeal>): (d: Dashboard)
    ensures !d.loading
    ensures ordersRes.Threw? || mealsRes.Threw? ==> d.stats == prev.stats && d.recentOrders == prev.recentOrders
    ensures !ordersRes.Threw? && !mealsRes.Threw? ==>
      && d.stats.totalOrders == |OrEmpty(ordersRes.data)| && d.stats.totalMenuItems == |OrEmpty(mealsRes.data)|
      && d.stats.pendingOrders <= d.stats.totalOrders
      && |d.recentOrders| <= RecentCount && d.recentOrders <= OrEmpty(ordersRes.data)
  {
    if ordersRes.Threw? || mealsRes.Threw? then prev.(loading := false)
    else
      var orders := OrEmpty(ordersRes.data);
      var meals := OrEmpty(mealsRes.data);
      Dashboard(StatsOf(orders, meals), RecentOf(orders), false)
  }

  // ------------------------------------------------------------ properties

  /** The pending count is the number of PLACED orders plus the number of PREPARING ones,
      so it never exceeds the order count. */
  lemma {:induction false} PendingCount(orders: seq<DashOrder>)
    ensures |PendingOf(orders)| == CountStatus(orders, "PLACED") + CountStatus(orders, "PREPARING")
    ensures |PendingOf(orders)| <= |orders|
  {
    if orders != [] {
      PendingCount(orders[1..]);
    }
  }

  lemma {:induction false} RevenueAppend(a: seq<DashOrder>, b: seq<DashOrder>)
    ensures Revenue(a + b) == Revenue(a) + Revenue(b)
  {
    if a == [] {
      assert a + b == b;
    } else {
      assert (a + b)[0] == a[0];
      assert (a + b)[1..] == a[1..] + b;
      RevenueAppend(a[1..], b);
      SumAppend(if a[0].status == "DELIVERED" then [a[0]] else [], DeliveredOf(a[1..] + b));
      SumAppend(if a[0].status == "DELIVERED" then [a[0]] else [], DeliveredOf(a[1..]));
    }
  }

  lemma {:induction false} SumAppend(a: seq<DashOrder>, b: seq<DashOrder>)
    ensures SumTotals(a + b) == SumTotals(a) + SumTotals(b)
  {
    if a == [] {
      assert a + b == b;
    } else {
      assert (a + b)[0] == a[0];
      assert (a + b)[1..] == a[1..] + b;
      SumAppend(a[1..], b);
    }
  }

  /** Revenue adds up order by order: a DELIVERED order adds its total, any other adds 0. */
  lemma RevenueOneOrder(orders: seq<DashOrder>, o: DashOrder)
    ensures Revenue(orders + [o]) == Revenue(orders) + if o.status == "DELIVERED" then o.total else 0
  {
    RevenueAppend(orders, [o]);
    assert [o][1..] == [];
    if o.status == "DELIVERED" {
      assert DeliveredOf([o]) == [o] + [] == [o];
      assert SumTotals([o]) == o.total + SumTotals([]);
    } else {
      assert DeliveredOf([o]) == [] + [] == [];
    }
  }

  /** Revenue is the sum of the totals of the DELIVERED orders only: with none, it is 0. */
  lemma {:induction false} RevenueWithoutDelivered(orders: seq<DashOrder>)
    requires CountStatus(orders, "DELIVERED") == 0
    ensures Revenue(orders) == 0
  {
    if orders != [] {
      RevenueWithoutDelivered(orders[1..]);
      assert DeliveredOf(orders) == [] + DeliveredOf(orders[1..]) == DeliveredOf(orders[1..]);
    }
  }

  /** The recent list is the first min(5, n) orders. */
  lemma RecentIsPrefix(orders: seq<DashOrder>)
    ensures |RecentOf(orders)| == if |orders| < RecentCount then |orders| else RecentCount
    ensures RecentOf(orders) == orders[..|RecentOf(orders)|]
  {
  }

  /** The statistics of two readable responses. */
  lemma LoadedStats(prev: Dashboard, os: seq<DashOrder>, ms: seq<MenuMeal>)
    ensures var d := LoadDashboard(prev, Json(Some(os)), Json(Some(ms)));
      !d.loading
      && d.stats.totalOrders == |os| && d.stats.totalMenuItems == |ms|
      && d.stats.pendingOrders == CountStatus(os, "PLACED") + CountStatus(os, "PREPARING")
      && d.stats.pendingOrders <= d.stats.totalOrders
      && d.stats.totalRevenue == SumTotals(DeliveredOf(os))
      && d.recentOrders == os[..if |os| < RecentCount then |os| else RecentCount]
  {
    PendingCount(os);
    RecentIsPrefix(os);
  }

  /** A missing `data` field reads as an empty list, so every statistic is 0. */
  lemma MissingDataIsZero(prev: Dashboard)
    ensures LoadDashboard(prev, Json(None), Json(None)) == Dashboard(Stats(0, 0, 0, 0), [], false)
  {
  }

  /** A throwing fetch leaves the statistics and the recent list as they were. */
  lemma ThrewKeepsState(prev: Dashboard, o: Response<DashOrder>, m: Response<MenuMeal>)
    requires o.Threw? || m.Threw?
    ensures LoadDashboard(prev, o, m).stats == prev.stats
    ensures LoadDashboard(prev, o, m).recentOrders == prev.recentOrders
  {
  }

  // ------------------------------------------------------------ badge colour

  /** `getStatusColor`. */
  function StatusColor(status: string): (c: string)
    ensures c == Gray <==> status !in {"PLACED", "PREPARING", "READY", "DELIVERED", "CANCELLED"}
  {
    if status == "PLACED" then "bg-yellow-100 text-yellow-700"
    else if status == "PREPARING" then "bg-blue-100 text-blue-700"
    else if status == "READY" then "bg-purple-100 text-purple-700"
    else if status == "DELIVERED" then "bg-green-100 text-green-700"
    else if status == "CANCELLED" then "bg-red-100 text-red-700"
    else "bg-gray-100 text-gray-700"
  }

  const Gray: string := "bg-gray-100 text-gray-700"

  /** Every one of the five statuses gets a colour of its own, different from the gray
      default that every other string gets. */
  lemma StatusColorDistinct(a: OrderStatus, b: OrderStatus, other: string)
    requires forall s: OrderStatus :: other != StatusName(s)
    ensures a != b ==> StatusColor(StatusName(a)) != StatusColor(StatusName(b))
    ensures StatusColor(StatusName(a)) != Gray
    ensures StatusColor(other) == Gray
  {
    assert other != "PLACED" by { assert StatusName(Placed) == "PLACED"; }
    assert other != "PREPARING" by { assert StatusName(Preparing) == "PREPARING"; }
    assert other != "READY" by { assert StatusName(Ready) == "READY"; }
    assert other != "DELIVERED" by { assert StatusName(Delivered) == "DELIVERED"; }
    assert other != "CANCELLED" by { assert StatusName(Cancelled) == "CANCELLED"; }
  }
}
