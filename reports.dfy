/** The financial reports page (pages/Reports.tsx): the date windows, the
    KPIs (inventory value, revenue, cost of goods sold, net profit, margin)
    and the per-day chart.

    Calendar arithmetic is abstracted into a Clock: the page's own
    `setHours`, `setDate` and `setMonth` results are its fields. */
module Reports {
  import opened Types
  import opened Seqs
  import opened Api
  import Pos

  /** The date tabs; a custom bound is `None` when its input is empty. */
  datatype DateFilter = Today | Yesterday | Week | Month | All | Custom(start: Option<int>, end: Option<int>)

  /** The calendar as the page sees it: midnight today, yesterday, seven
      days and one month back, and the start and end of a timestamp's day. */
  datatype Clock = Clock(today: int, yesterday: int, weekAgo: int, monthAgo: int,
                         dayStart: int -> int, dayEnd: int -> int)

  /** The date filter on one order date. */
  predicate InWindow(f: DateFilter, c: Clock, t: int)
  {
    match f
    case Today => c.dayStart(t) == c.today
    case Yesterday => c.dayStart(t) == c.yesterday
    case Week => c.dayStart(t) >= c.weekAgo
    case Month => c.dayStart(t) >= c.monthAgo
    case Custom(start, end) =>
      start.None? || end.None? || (c.dayStart(start.value) <= t && t <= c.dayEnd(end.value))
    case All => true
  }

  /** The KPI and chart filter: not cancelled and inside the window. */
  function KeptBy(f: DateFilter, c: Clock): Order -> bool
  {
    (o: Order) => o.status != Cancelado && InWindow(f, c, o.date)
  }

  function Kept(os: seq<Order>, f: DateFilter, c: Clock): seq<Order>
  {
    Filter(os, KeptBy(f, c))
  }

  /** Exactly the non-cancelled orders inside the window are kept, in order. */
  lemma KeptContents(os: seq<Order>, f: DateFilter, c: Clock)
    ensures forall o :: o in Kept(os, f, c) <==> o in os && o.status != Cancelado && InWindow(f, c, o.date)
    ensures IsSubseq(Kept(os, f, c), os)
    ensures forall o :: multiset(Kept(os, f, c))[o] ==
              if o.status != Cancelado && InWindow(f, c, o.date) then multiset(os)[o] else 0
  {
    FilterIsSubseq(os, KeptBy(f, c));
    FilterCount(os, KeptBy(f, c));
  }

  /** A calendar the way `Date` behaves: a timestamp lies between the start
      and the end of its day, two timestamps of one day share its end, and
      an earlier day ends before a later day starts. */
  ghost predicate WellFormedClock(c: Clock)
  {
    && (forall x :: c.dayStart(x) <= x <= c.dayEnd(x))
    && (forall x, y :: c.dayStart(x) == c.dayStart(y) ==> c.dayEnd(x) == c.dayEnd(y))
    && (forall x, y :: c.dayStart(x) < c.dayStart(y) ==> c.dayEnd(x) < c.dayStart(y))
  }

  /** Milliseconds in a day. */
  const DayMs := 86400000

  /** Midnight (UTC) of a timestamp in milliseconds. */
  function Midnight(x: int): int
  {
    x - x % DayMs
  }

  lemma MidnightStep(x: int, y: int)
    requires Midnight(x) < Midnight(y)
    ensures Midnight(x) + DayMs <= Midnight(y)
  {
    assert Midnight(x) == (x / DayMs) * DayMs;
    assert Midnight(y) == (y / DayMs) * DayMs;
    assert x / DayMs < y / DayMs;
  }

  /** Whole UTC days, from midnight to 23:59:59.999, form a well-formed
      calendar, so the window rules below hold for an actual calendar. */
  lemma UtcCalendarIsWellFormed(today: int)
    ensures WellFormedClock(Clock(today, today - DayMs, today - 7 * DayMs, today - 30 * DayMs,
                                  Midnight, (x: int) => Midnight(x) + DayMs - 1))
  {
    forall x: int, y: int | Midnight(x) < Midnight(y)
      ensures Midnight(x) + DayMs - 1 < Midnight(y)
    {
      MidnightStep(x, y);
    }
  }

  /** How the tabs relate: today and yesterday lie inside the week when the
      week reaches back that far, and the week inside the month; a custom
      range keeps every order of its start day, its end day and the days in
      between and nothing else, and is open when either input is empty. */
  lemma WindowRules(c: Clock, t: int, start: Option<int>, end: Option<int>)
    requires WellFormedClock(c)
    ensures InWindow(Today, c, t) && c.weekAgo <= c.today ==> InWindow(Week, c, t)
    ensures InWindow(Yesterday, c, t) && c.weekAgo <= c.yesterday ==> InWindow(Week, c, t)
    ensures InWindow(Week, c, t) && c.monthAgo <= c.weekAgo ==> InWindow(Month, c, t)
    ensures start.None? || end.None? ==> InWindow(Custom(start, end), c, t)
    ensures start.Some? && end.Some? ==>
              (InWindow(Custom(start, end), c, t) <==>
                 c.dayStart(start.value) <= c.dayStart(t) <= c.dayStart(end.value))
    ensures InWindow(All, c, t)
  {
    if start.Some? && end.Some? {
      var s, e := start.value, end.value;
      if c.dayStart(s) <= c.dayStart(t) <= c.dayStart(e) {
        assert c.dayStart(s) <= t;
        if c.dayStart(t) < c.dayStart(e) {
          assert c.dayEnd(t) < c.dayStart(e);
        } else {
          assert c.dayEnd(t) == c.dayEnd(e);
        }
      }
    }
  }

  // ---------------------------------------------------------------------
  // Costs
  // ---------------------------------------------------------------------

  /** `item.costAtSale ?? productRef?.cost ?? 0`. */
  function UnitCost(item: OrderItem, ps: seq<Product>): real
  {
    match item.costAtSale
    case Some(c) => c
    case None =>
      match FindProduct(ps, item.productId)
      case Some(p) => p.cost
      case None => 0.0
  }

  /** A recorded cost wins even when it is zero; without one, the current
      cost of the product with that id, and 0 for a product that is gone. */
  lemma UnitCostFallback(item: OrderItem, ps: seq<Product>)
    ensures item.costAtSale.Some? ==> UnitCost(item, ps) == item.costAtSale.value
    ensures item.costAtSale.None? && (exists p :: p in ps && p.id == item.productId) ==>
              UnitCost(item, ps) == ps[ProductIndex(ps, item.productId)].cost
    ensures item.costAtSale.None? && (forall p :: p in ps ==> p.id != item.productId) ==>
              UnitCost(item, ps) == 0.0
  {
  }

  /** Items sold at the counter carry no cost, so every report prices them at
      the product's current cost: a later purchase at a new cost re-prices
      past sales. */
  lemma CheckoutItemsUseCurrentCost(line: CartItem, ps: seq<Product>)
    ensures UnitCost(Pos.ToOrderItem(line), ps) ==
              match FindProduct(ps, line.product.id)
              case Some(p) => p.cost
              case None => 0.0
  {
  }

  function ItemCost(item: OrderItem, ps: seq<Product>): real
  {
    item.quantity * UnitCost(item, ps)
  }

  function ItemCostIn(ps: seq<Product>): OrderItem -> real
  {
    (item: OrderItem) => ItemCost(item, ps)
  }

  function OrderCost(o: Order, ps: seq<Product>): real
  {
    Sum(o.items, ItemCostIn(ps))
  }

  function OrderCostIn(ps: seq<Product>): Order -> real
  {
    (o: Order) => OrderCost(o, ps)
  }

  /** Cost of goods sold. */
  function Cogs(os: seq<Order>, ps: seq<Product>): real
  {
    Sum(os, OrderCostIn(ps))
  }

  function Revenue(os: seq<Order>): real
  {
    Sum(os, OrderTotal)
  }

  function StockValue(p: Product): real
  {
    p.stock * p.cost
  }

  function InventoryValue(ps: seq<Product>): real
  {
    Sum(ps, StockValue)
  }

  /** The inventory value does not depend on orders or the date filter:
      selling lowers it by the sold quantity at cost, for each product. */
  lemma InventoryValueAfterSale(ps: seq<Product>, item: OrderItem)
    ensures InventoryValue(SellItem(ps, item)) ==
              InventoryValue(ps) - (if ProductIndex(ps, item.productId) >= 0
                                    then item.quantity * ps[ProductIndex(ps, item.productId)].cost
                                    else 0.0)
  {
    var k := ProductIndex(ps, item.productId);
    if k >= 0 {
      SumUpdate(ps, k, ps[k].(stock := ps[k].stock - item.quantity), StockValue);
    }
  }

  // ---------------------------------------------------------------------
  // KPIs (calculateMetrics)
  // ---------------------------------------------------------------------

  datatype Metrics = Metrics(inventoryValue: real, revenue: real, cost: real, netProfit: real)

  /** calculateMetrics: revenue and cost are accumulated over the kept orders
      and their items. */
  method CalculateMetrics(orders: seq<Order>, products: seq<Product>, filter: DateFilter, clock: Clock)
    returns (m: Metrics)
    ensures m.inventoryValue == InventoryValue(products)
    ensures m.revenue == Revenue(Kept(orders, filter, clock))
    ensures m.cost == Cogs(Kept(orders, filter, clock), products)
    ensures m.netProfit == m.revenue - m.cost
  {
    var currentInvValue := InventoryValue(products);
    var filteredOrders := Kept(orders, filter, clock);
    var revenue := 0.0;
    var cost := 0.0;
    var i := 0;
    while i < |filteredOrders|
      invariant 0 <= i <= |filteredOrders|
      invariant revenue == Revenue(filteredOrders[..i])
      invariant cost == Cogs(filteredOrders[..i], products)
    {
      var order := filteredOrders[i];
      revenue := revenue + order.total;
      var before := cost;
      var j := 0;
      while j < |order.items|
        invariant 0 <= j <= |order.items|
        invariant cost == before + Sum(order.items[..j], ItemCostIn(products))
      {
        var item := order.items[j];
        var itemCostUnit := UnitCost(item, products);
        cost := cost + item.quantity * itemCostUnit;
        assert order.items[..j + 1][..j] == order.items[..j];
        j := j + 1;
      }
      assert order.items[..j] == order.items;
      assert filteredOrders[..i + 1][..i] == filteredOrders[..i];
      i := i + 1;
    }
    assert filteredOrders[..i] == filteredOrders;
    m := Metrics(currentInvValue, revenue, cost, revenue - cost);
  }

  /** `totalRevenue > 0 ? (netProfit / totalRevenue) * 100 : 0`. */
  function Margin(revenue: real, netProfit: real): (r: real)
    ensures revenue <= 0.0 ==> r == 0.0
    ensures revenue > 0.0 ==> r * revenue == netProfit * 100.0
  {
    if revenue > 0.0 then (netProfit / revenue) * 100.0 else 0.0
  }

  /** With revenue, the margin has the sign of the profit, and it is at most
      100% when the cost of goods is not negative. */
  lemma MarginBounds(revenue: real, cost: real)
    requires revenue > 0.0
    ensures (Margin(revenue, revenue - cost) > 0.0) <==> revenue - cost > 0.0
    ensures cost >= 0.0 ==> Margin(revenue, revenue - cost) <= 100.0
  {
    var m := Margin(revenue, revenue - cost);
    assert m * revenue == (revenue - cost) * 100.0;
    if m > 0.0 {
      assert m * revenue > 0.0;
    }
    if revenue - cost > 0.0 {
      assert m * revenue > 0.0;
    }
    if cost >= 0.0 && m > 100.0 {
      assert m * revenue > 100.0 * revenue;
    }
  }

  /** Cancelling an order that the report keeps takes its total out of the
      revenue; no other order's contribution changes. */
  lemma CancellingRemovesFromRevenue(os: seq<Order>, id: string, f: DateFilter, c: Clock)
    ensures var k := OrderIndex(os, id);
            Revenue(Kept(SetStatus(os, id, Cancelado, None), f, c)) ==
              Revenue(Kept(os, f, c)) - (if k >= 0 && KeptBy(f, c)(os[k]) then os[k].total else 0.0)
  {
    var k := OrderIndex(os, id);
    if k >= 0 {
      var r := SetStatus(os, id, Cancelado, None);
      StatusUpdateEffect(os, id, Cancelado, None);
      assert r == os[k := r[k]];
      SumFilterUpdateDropped(os, k, r[k], KeptBy(f, c), OrderTotal);
    }
  }

  // ---------------------------------------------------------------------
  // Chart (getChartData)
  // ---------------------------------------------------------------------

  /** One chart bucket; `date` is the day label, the bucket's key. */
  datatype ChartPoint = ChartPoint(date: string, revenue: real, profit: real)

  function PointDate(p: ChartPoint): string { p.date }
  function PointRevenue(p: ChartPoint): real { p.revenue }
  function PointProfit(p: ChartPoint): real { p.profit }

  /** `dataMap[dateStr]` created on first use, then incremented. Buckets are
      kept in creation order, as `Object.values` lists them. */
  function Credit(points: seq<ChartPoint>, day: string, revenue: real, profit: real): seq<ChartPoint>
  {
    var k := IndexOf(points, PointDate, day);
    if k < 0 then points + [ChartPoint(day, revenue, profit)]
    else points[k := points[k].(revenue := points[k].revenue + revenue, profit := points[k].profit + profit)]
  }

  /** The buckets after crediting every order in turn, each with its total
      as revenue and `profit` of it as profit. */
  function Buckets(os: seq<Order>, profit: Order -> real, dayLabel: int -> string): seq<ChartPoint>
  {
    if |os| == 0 then []
    else
      var o := os[|os| - 1];
      Credit(Buckets(os[..|os| - 1], profit, dayLabel), dayLabel(o.date), o.total, profit(o))
  }

  /** An order's profit: its total less its cost of goods. */
  function ProfitIn(ps: seq<Product>): Order -> real
  {
    (o: Order) => o.total - OrderCost(o, ps)
  }

  /** The chart: each order's profit is its total less its cost of goods. */
  function Chart(os: seq<Order>, ps: seq<Product>, dayLabel: int -> string): seq<ChartPoint>
  {
    Buckets(os, ProfitIn(ps), dayLabel)
  }

  ghost predicate DistinctDates(points: seq<ChartPoint>)
  {
    forall i, j :: 0 <= i < j < |points| ==> points[i].date != points[j].date
  }

  /** Crediting adds the amounts to the buckets' sums, whether it opens a
      bucket or adds to one. */
  lemma CreditSums(points: seq<ChartPoint>, day: string, revenue: real, profit: real)
    ensures var r := Credit(points, day, revenue, profit);
            && Sum(r, PointRevenue) == Sum(points, PointRevenue) + revenue
            && Sum(r, PointProfit) == Sum(points, PointProfit) + profit
  {
    var k := IndexOf(points, PointDate, day);
    var r := Credit(points, day, revenue, profit);
    if k < 0 {
      SumSnoc(points, ChartPoint(day, revenue, profit), PointRevenue);
      SumSnoc(points, ChartPoint(day, revenue, profit), PointProfit);
    } else {
      SumUpdate(points, k, r[k], PointRevenue);
      SumUpdate(points, k, r[k], PointProfit);
    }
  }

  /** Crediting opens a bucket only for a day that has none. */
  lemma CreditDistinct(points: seq<ChartPoint>, day: string, revenue: real, profit: real)
    requires DistinctDates(points)
    ensures DistinctDates(Credit(points, day, revenue, profit))
  {
  }

  /** Crediting keeps every bucket's day where it was and leaves a bucket for
      the credited day. */
  lemma CreditKeepsDays(points: seq<ChartPoint>, day: string, revenue: real, profit: real)
    ensures var r := Credit(points, day, revenue, profit);
            && |points| <= |r|
            && (forall i :: 0 <= i < |points| ==> r[i].date == points[i].date)
            && (exists i :: 0 <= i < |r| && r[i].date == day)
  {
    var k := IndexOf(points, PointDate, day);
    var r := Credit(points, day, revenue, profit);
    if k < 0 {
      assert r[|points|].date == day;
    } else {
      assert r[k].date == day;
    }
  }

  /** The buckets have distinct day labels. */
  lemma {:induction false} BucketsDistinct(os: seq<Order>, profit: Order -> real, dayLabel: int -> string)
    ensures DistinctDates(Buckets(os, profit, dayLabel))
    decreases |os|
  {
    if |os| > 0 {
      var o := os[|os| - 1];
      BucketsDistinct(os[..|os| - 1], profit, dayLabel);
      CreditDistinct(Buckets(os[..|os| - 1], profit, dayLabel), dayLabel(o.date), o.total, profit(o));
    }
  }

  /** The bucket revenues add up to the revenue of the charted orders. */
  lemma {:induction false} BucketsRevenue(os: seq<Order>, profit: Order -> real, dayLabel: int -> string)
    ensures Sum(Buckets(os, profit, dayLabel), PointRevenue) == Revenue(os)
    decreases |os|
  {
    if |os| > 0 {
      var o := os[|os| - 1];
      BucketsRevenue(os[..|os| - 1], profit, dayLabel);
      CreditSums(Buckets(os[..|os| - 1], profit, dayLabel), dayLabel(o.date), o.total, profit(o));
    }
  }

  /** The bucket profits add up to the profits of the charted orders. */
  lemma {:induction false} BucketsProfit(os: seq<Order>, profit: Order -> real, dayLabel: int -> string)
    ensures Sum(Buckets(os, profit, dayLabel), PointProfit) == Sum(os, profit)
    decreases |os|
  {
    if |os| > 0 {
      var o := os[|os| - 1];
      BucketsProfit(os[..|os| - 1], profit, dayLabel);
      CreditSums(Buckets(os[..|os| - 1], profit, dayLabel), dayLabel(o.date), o.total, profit(o));
    }
  }

  /** Every charted order's day has a bucket. */
  lemma {:induction false} BucketsHaveEveryDay(os: seq<Order>, profit: Order -> real, dayLabel: int -> string, o: Order)
    requires o in os
    ensures exists i :: 0 <= i < |Buckets(os, profit, dayLabel)| && Buckets(os, profit, dayLabel)[i].date == dayLabel(o.date)
    decreases |os|
  {
    var init := os[..|os| - 1];
    var last := os[|os| - 1];
    var prev := Buckets(init, profit, dayLabel);
    var r := Credit(prev, dayLabel(last.date), last.total, profit(last));
    assert Buckets(os, profit, dayLabel) == r;
    CreditKeepsDays(prev, dayLabel(last.date), last.total, profit(last));
    if o != last {
      assert os == init + [last];
      BucketsHaveEveryDay(init, profit, dayLabel, o);
      var i :| 0 <= i < |prev| && prev[i].date == dayLabel(o.date);
      assert r[i].date == dayLabel(o.date);
    }
  }

  /** The orders whose day label is `day`. */
  function OnDay(dayLabel: int -> string, day: string): Order -> bool
  {
    (o: Order) => dayLabel(o.date) == day
  }

  /** Crediting `d` leaves the bucket of any other day as it was, and the
      bucket of `d` holds what it held (nothing, if new) plus the amounts. */
  lemma CreditDay(points: seq<ChartPoint>, d: string, revenue: real, profit: real, day: string)
    ensures var r := Credit(points, d, revenue, profit);
            var kp := IndexOf(points, PointDate, day);
            var kr := IndexOf(r, PointDate, day);
            && (day != d ==> kr == kp && (kp >= 0 ==> r[kr] == points[kp]))
            && (day == d ==>
                  && 0 <= kr
                  && r[kr].revenue == (if kp >= 0 then points[kp].revenue else 0.0) + revenue
                  && r[kr].profit == (if kp >= 0 then points[kp].profit else 0.0) + profit)
  {
    var r := Credit(points, d, revenue, profit);
    var k := IndexOf(points, PointDate, d);
    if k >= 0 {
      IndexOfSameKeys(points, r, PointDate, day);
    } else {
      var kp := IndexOf(points, PointDate, day);
      var kr := IndexOf(r, PointDate, day);
      if day == d {
        assert PointDate(r[|points|]) == day;
        assert kr == |points|;
      } else if kp >= 0 {
        assert PointDate(r[kp]) == day;
        assert kr == kp;
      } else {
        assert forall j :: 0 <= j < |r| ==> PointDate(r[j]) != day;
      }
    }
  }

  /** Per day: a day without a bucket has no charted order, and a day's
      bucket holds the total and the profit of exactly that day's orders. */
  lemma {:induction false} BucketsPerDay(os: seq<Order>, profit: Order -> real, dayLabel: int -> string, day: string)
    ensures var b := Buckets(os, profit, dayLabel);
            var k := IndexOf(b, PointDate, day);
            var those := Filter(os, OnDay(dayLabel, day));
            && (k < 0 ==> those == [])
            && (k >= 0 ==> those != [] && b[k].revenue == Sum(those, OrderTotal) && b[k].profit == Sum(those, profit))
    decreases |os|
  {
    if |os| > 0 {
      var init := os[..|os| - 1];
      var o := os[|os| - 1];
      var d := dayLabel(o.date);
      assert os == init + [o];
      var prev := Buckets(init, profit, dayLabel);
      assert Buckets(os, profit, dayLabel) == Credit(prev, d, o.total, profit(o));
      BucketsPerDay(init, profit, dayLabel, day);
      CreditDay(prev, d, o.total, profit(o), day);
      FilterSnoc(init, o, OnDay(dayLabel, day));
      var before := Filter(init, OnDay(dayLabel, day));
      if d == day {
        assert Filter(os, OnDay(dayLabel, day)) == before + [o];
        SumSnoc(before, o, OrderTotal);
        SumSnoc(before, o, profit);
      } else {
        assert Filter(os, OnDay(dayLabel, day)) == before;
      }
    }
  }

  /** Each bucket of the chart is one day: it holds the revenue of the
      charted orders of that day, and their revenue minus their cost of goods
      as its profit; at least one charted order falls on that day. */
  lemma ChartDays(os: seq<Order>, ps: seq<Product>, dayLabel: int -> string, i: int)
    requires 0 <= i < |Chart(os, ps, dayLabel)|
    ensures var p := Chart(os, ps, dayLabel)[i];
            var those := Filter(os, OnDay(dayLabel, p.date));
            && those != []
            && p.revenue == Revenue(those)
            && p.profit == Revenue(those) - Cogs(those, ps)
  {
    var b := Chart(os, ps, dayLabel);
    var day := b[i].date;
    BucketsDistinct(os, ProfitIn(ps), dayLabel);
    assert IndexOf(b, PointDate, day) == i;
    BucketsPerDay(os, ProfitIn(ps), dayLabel, day);
    SumDifference(Filter(os, OnDay(dayLabel, day)), OrderTotal, OrderCostIn(ps), ProfitIn(ps));
  }

  /** The chart's buckets have distinct day labels; their revenues add up to the revenue of the charted orders
      and their profits to revenue minus cost of goods, so the chart agrees
      with the KPI cards. */
  lemma ChartTotals(os: seq<Order>, ps: seq<Product>, dayLabel: int -> string)
    ensures DistinctDates(Chart(os, ps, dayLabel))
    ensures Sum(Chart(os, ps, dayLabel), PointRevenue) == Revenue(os)
    ensures Sum(Chart(os, ps, dayLabel), PointProfit) == Revenue(os) - Cogs(os, ps)
  {
    BucketsDistinct(os, ProfitIn(ps), dayLabel);
    BucketsRevenue(os, ProfitIn(ps), dayLabel);
    BucketsProfit(os, ProfitIn(ps), dayLabel);
    SumDifference(os, OrderTotal, OrderCostIn(ps), ProfitIn(ps));
  }

  /** The `dataMap` update for one order: open a zero bucket for a new day,
      then add the revenue, then the profit. */
  method CreditBucket(points: seq<ChartPoint>, day: string, revenue: real, profit: real)
    returns (r: seq<ChartPoint>)
    ensures r == Credit(points, day, revenue, profit)
  {
    r := points;
    var k := IndexOf(r, PointDate, day);
    if k < 0 {
      r := r + [ChartPoint(day, 0.0, 0.0)];
      k := |r| - 1;
    }
    r := r[k := r[k].(revenue := r[k].revenue + revenue)];
    r := r[k := r[k].(profit := r[k].profit + profit)];
  }

  /** One more order in the prefix: its day's bucket is credited. */
  lemma BucketsStep(os: seq<Order>, i: int, profit: Order -> real, dayLabel: int -> string)
    requires 0 <= i < |os|
    ensures Buckets(os[..i + 1], profit, dayLabel)
            == Credit(Buckets(os[..i], profit, dayLabel), dayLabel(os[i].date), os[i].total, profit(os[i]))
  {
    assert os[..i + 1][..i] == os[..i];
  }

  /** The chart's per-order cost loop: quantity times unit cost, summed over
      the items with the same fallback as the KPIs. */
  method ChartOrderCost(o: Order, products: seq<Product>) returns (orderCost: real)
    ensures orderCost == OrderCost(o, products)
  {
    orderCost := 0.0;
    var j := 0;
    while j < |o.items|
      invariant 0 <= j <= |o.items|
      invariant orderCost == Sum(o.items[..j], ItemCostIn(products))
    {
      var item := o.items[j];
      orderCost := orderCost + item.quantity * UnitCost(item, products);
      assert o.items[..j + 1][..j] == o.items[..j];
      j := j + 1;
    }
    assert o.items[..j] == o.items;
  }

  /** getChartData: the kept orders credited one by one into the buckets;
      each bucket then holds one day's revenue and profit. */
  method GetChartData(orders: seq<Order>, products: seq<Product>, filter: DateFilter, clock: Clock,
                      dayLabel: int -> string)
    returns (points: seq<ChartPoint>)
    ensures points == Chart(Kept(orders, filter, clock), products, dayLabel)
    ensures forall i :: 0 <= i < |points| ==>
              var those := Filter(Kept(orders, filter, clock), OnDay(dayLabel, points[i].date));
              && those != []
              && points[i].revenue == Revenue(those)
              && points[i].profit == Revenue(those) - Cogs(those, products)
  {
    var filteredChartOrders := Kept(orders, filter, clock);
    points := [];
    var i := 0;
    while i < |filteredChartOrders|
      invariant 0 <= i <= |filteredChartOrders|
      invariant points == Buckets(filteredChartOrders[..i], ProfitIn(products), dayLabel)
    {
      var o := filteredChartOrders[i];
      var dateStr := dayLabel(o.date);
      var orderCost := ChartOrderCost(o, products);
      points := CreditBucket(points, dateStr, o.total, o.total - orderCost);
      BucketsStep(filteredChartOrders, i, ProfitIn(products), dayLabel);
      i := i + 1;
    }
    assert filteredChartOrders[..i] == filteredChartOrders;
    forall j | 0 <= j < |points|
      ensures var those := Filter(filteredChartOrders, OnDay(dayLabel, points[j].date));
              && those != []
              && points[j].revenue == Revenue(those)
              && points[j].profit == Revenue(those) - Cogs(those, products)
    {
      ChartDays(filteredChartOrders, products, dayLabel, j);
    }
  }
}
