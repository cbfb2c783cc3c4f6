/** The dashboard page (pages/Dashboard.tsx): total sales, the low-stock
    list, sales per category, the average ticket and sales per weekday over
    the last seven days. */
module Dashboard {
  import opened Types
  import opened Seqs
  import opened Api
  import opened Reports
  import opened Inventory

  /** `orders.reduce((acc, curr) => acc + curr.total, 0)`: every order,
      cancelled ones included. */
  function TotalSales(os: seq<Order>): real
  {
    Sum(os, OrderTotal)
  }

  function IsCancelled(o: Order): bool
  {
    o.status == Cancelado
  }

  /** Total sales are the report's all-time revenue plus the totals of the
      cancelled orders, which the report leaves out. */
  lemma TotalSalesCountsCancelled(os: seq<Order>, c: Clock)
    ensures TotalSales(os) == Revenue(Kept(os, All, c)) + Sum(Filter(os, IsCancelled), OrderTotal)
  {
    SumFilterSplit(os, KeptBy(All, c), IsCancelled, OrderTotal);
  }

  /** lowStockProducts. */
  function LowStockProducts(ps: seq<Product>): seq<Product>
  {
    Filter(ps, IsLowStock)
  }

  /** The alert list holds, in order, exactly the products at or below their
      minimum stock, the same rows the inventory table shows in red. */
  lemma LowStockContents(ps: seq<Product>)
    ensures forall p :: p in LowStockProducts(ps) <==> p in ps && p.stock <= p.minStock
    ensures IsSubseq(LowStockProducts(ps), ps)
    ensures forall p :: multiset(LowStockProducts(ps))[p] == if p.stock <= p.minStock then multiset(ps)[p] else 0
  {
    FilterIsSubseq(ps, IsLowStock);
    FilterCount(ps, IsLowStock);
  }

  /** `totalSales / (orders.length || 1)`. */
  function AverageTicket(os: seq<Order>): (r: real)
    ensures |os| == 0 ==> r == 0.0
    ensures |os| > 0 ==> r * (|os| as real) == TotalSales(os)
  {
    TotalSales(os) / (if |os| == 0 then 1 else |os|) as real
  }

  // ---------------------------------------------------------------------
  // Keyed tallies: `raw[key] = (raw[key] || 0) + value`
  // ---------------------------------------------------------------------

  /** Adds v under k, starting from 0 for a new key. */
  function Bump<K>(m: map<K, real>, k: K, v: real): map<K, real>
  {
    m[k := (if k in m then m[k] else 0.0) + v]
  }

  /** The dictionary after bumping every element in turn. */
  function Tally<T, K(==)>(s: seq<T>, key: T -> K, val: T -> real): map<K, real>
  {
    if |s| == 0 then map[] else Bump(Tally(s[..|s| - 1], key, val), key(s[|s| - 1]), val(s[|s| - 1]))
  }

  lemma TallySnoc<T, K>(s: seq<T>, x: T, key: T -> K, val: T -> real)
    ensures Tally(s + [x], key, val) == Bump(Tally(s, key, val), key(x), val(x))
  {
    assert (s + [x])[..|s|] == s;
  }

  /** The sum of the values of the elements with key k. */
  function KeyTotal<T, K(==)>(s: seq<T>, key: T -> K, val: T -> real, k: K): real
  {
    if |s| == 0 then 0.0
    else KeyTotal(s[..|s| - 1], key, val, k) + (if key(s[|s| - 1]) == k then val(s[|s| - 1]) else 0.0)
  }

  /** The tally has a key exactly for the keys that occur, and under each the
      sum of the values with that key. */
  lemma {:induction false} TallyMeaning<T, K>(s: seq<T>, key: T -> K, val: T -> real, k: K)
    ensures k in Tally(s, key, val) <==> exists i :: 0 <= i < |s| && key(s[i]) == k
    ensures k in Tally(s, key, val) ==> Tally(s, key, val)[k] == KeyTotal(s, key, val, k)
    decreases |s|
  {
    if |s| > 0 {
      var init := s[..|s| - 1];
      TallyMeaning(init, key, val, k);
      if exists i :: 0 <= i < |init| && key(init[i]) == k {
        var i :| 0 <= i < |init| && key(init[i]) == k;
        assert s[i] == init[i];
      }
      if exists i :: 0 <= i < |s| && key(s[i]) == k {
        var i :| 0 <= i < |s| && key(s[i]) == k;
        if i < |init| {
          assert init[i] == s[i];
        }
      }
      if k !in Tally(init, key, val) {
        assert KeyTotal(init, key, val, k) == 0.0 by { KeyTotalAbsent(init, key, val, k); }
      }
    }
  }

  lemma {:induction false} KeyTotalAbsent<T, K>(s: seq<T>, key: T -> K, val: T -> real, k: K)
    requires forall i :: 0 <= i < |s| ==> key(s[i]) != k
    ensures KeyTotal(s, key, val, k) == 0.0
    decreases |s|
  {
    if |s| > 0 {
      var init := s[..|s| - 1];
      assert forall i :: 0 <= i < |init| ==> init[i] == s[i];
      KeyTotalAbsent(init, key, val, k);
    }
  }

  // ---------------------------------------------------------------------
  // Sales by category (categoryDataRaw)
  // ---------------------------------------------------------------------

  /** The items of all orders, order after order. */
  function AllItems(os: seq<Order>): seq<OrderItem>
  {
    if |os| == 0 then [] else AllItems(os[..|os| - 1]) + os[|os| - 1].items
  }

  /** The category of the item's product now, or Otros when it is gone. */
  function CategoryOf(item: OrderItem, ps: seq<Product>): ProductCategory
  {
    match FindProduct(ps, item.productId)
    case Some(p) => p.category
    case None => Otros
  }

  function CategoryIn(ps: seq<Product>): OrderItem -> ProductCategory
  {
    (item: OrderItem) => CategoryOf(item, ps)
  }

  /** categoryDataRaw: every item's subtotal is added under its category. */
  method CategorySales(orders: seq<Order>, products: seq<Product>) returns (raw: map<ProductCategory, real>)
    ensures raw == Tally(AllItems(orders), CategoryIn(products), ItemSubtotal)
  {
    raw := map[];
    var i := 0;
    while i < |orders|
      invariant 0 <= i <= |orders|
      invariant raw == Tally(AllItems(orders[..i]), CategoryIn(products), ItemSubtotal)
    {
      var o := orders[i];
      ghost var done := AllItems(orders[..i]);
      var j := 0;
      assert done + o.items[..0] == done;
      while j < |o.items|
        invariant 0 <= j <= |o.items|
        invariant raw == Tally(done + o.items[..j], CategoryIn(products), ItemSubtotal)
      {
        var item := o.items[j];
        var product := FindProduct(products, item.productId);
        var cat := if product.Some? then product.value.category else Otros;
        ItemStep(done, o.items, j, products);
        raw := Bump(raw, cat, item.subtotal);
        j := j + 1;
      }
      assert o.items[..j] == o.items;
      assert orders[..i + 1][..i] == orders[..i];
      assert AllItems(orders[..i + 1]) == done + o.items;
      i := i + 1;
    }
    assert orders[..i] == orders;
  }

  lemma ItemStep(done: seq<OrderItem>, items: seq<OrderItem>, j: int, ps: seq<Product>)
    requires 0 <= j < |items|
    ensures Tally(done + items[..j + 1], CategoryIn(ps), ItemSubtotal)
            == Bump(Tally(done + items[..j], CategoryIn(ps), ItemSubtotal),
                    CategoryOf(items[j], ps), items[j].subtotal)
  {
    assert done + items[..j + 1] == (done + items[..j]) + [items[j]];
    TallySnoc(done + items[..j], items[j], CategoryIn(ps), ItemSubtotal);
  }

  /** The five category sums add up to the sum of all item subtotals: each
      subtotal is credited to exactly one category. */
  lemma {:induction false} CategoriesPartitionSales(items: seq<OrderItem>, ps: seq<Product>)
    ensures KeyTotal(items, CategoryIn(ps), ItemSubtotal, Huevos)
            + KeyTotal(items, CategoryIn(ps), ItemSubtotal, Pollo)
            + KeyTotal(items, CategoryIn(ps), ItemSubtotal, Queso)
            + KeyTotal(items, CategoryIn(ps), ItemSubtotal, Carne)
            + KeyTotal(items, CategoryIn(ps), ItemSubtotal, Otros)
            == Sum(items, ItemSubtotal)
    decreases |items|
  {
    if |items| > 0 {
      CategoriesPartitionSales(items[..|items| - 1], ps);
      var cat := CategoryIn(ps)(items[|items| - 1]);
      match cat
      case Huevos =>
      case Pollo =>
      case Queso =>
      case Carne =>
      case Otros =>
    }
  }

  /** An item whose product was deleted is credited to Otros. */
  lemma MissingProductCountsAsOtros(item: OrderItem, ps: seq<Product>)
    requires forall p :: p in ps ==> p.id != item.productId
    ensures CategoryOf(item, ps) == Otros
  {
  }

  // ---------------------------------------------------------------------
  // Sales by weekday (salesByDayRaw)
  // ---------------------------------------------------------------------

  function After(cutoff: int): Order -> bool
  {
    (o: Order) => o.date > cutoff
  }

  function WeekdayOf(weekday: int -> string): Order -> string
  {
    (o: Order) => weekday(o.date)
  }

  /** salesByDayRaw: the totals of orders strictly after the cutoff (now
      minus seven days), added under their weekday label. */
  method SalesByDay(orders: seq<Order>, cutoff: int, weekday: int -> string) returns (raw: map<string, real>)
    ensures raw == Tally(Filter(orders, After(cutoff)), WeekdayOf(weekday), OrderTotal)
  {
    raw := map[];
    var i := 0;
    while i < |orders|
      invariant 0 <= i <= |orders|
      invariant raw == Tally(Filter(orders[..i], After(cutoff)), WeekdayOf(weekday), OrderTotal)
    {
      var o := orders[i];
      DayStep(orders, i, cutoff, weekday);
      if o.date > cutoff {
        var dateStr := weekday(o.date);
        raw := Bump(raw, dateStr, o.total);
      }
      i := i + 1;
    }
    assert orders[..i] == orders;
  }

  lemma DayStep(orders: seq<Order>, i: int, cutoff: int, weekday: int -> string)
    requires 0 <= i < |orders|
    ensures var m := Tally(Filter(orders[..i], After(cutoff)), WeekdayOf(weekday), OrderTotal);
            var o := orders[i];
            Tally(Filter(orders[..i + 1], After(cutoff)), WeekdayOf(weekday), OrderTotal)
            == if o.date > cutoff then Bump(m, weekday(o.date), o.total) else m
  {
    var o := orders[i];
    assert orders[..i + 1] == orders[..i] + [o];
    FilterSnoc(orders[..i], o, After(cutoff));
    TallySnoc(Filter(orders[..i], After(cutoff)), o, WeekdayOf(weekday), OrderTotal);
  }

  /** A weekday appears in the chart exactly when some order after the cutoff
      falls on it, and its bar is the sum of those orders' totals; orders at
      or before the cutoff are never counted. */
  lemma SalesByDayMeaning(orders: seq<Order>, cutoff: int, weekday: int -> string, day: string)
    ensures var recent := Filter(orders, After(cutoff));
            var raw := Tally(recent, WeekdayOf(weekday), OrderTotal);
            && (day in raw <==> exists o :: o in orders && o.date > cutoff && weekday(o.date) == day)
            && (day in raw ==> raw[day] == KeyTotal(recent, WeekdayOf(weekday), OrderTotal, day))
  {
    var recent := Filter(orders, After(cutoff));
    TallyMeaning(recent, WeekdayOf(weekday), OrderTotal, day);
    if exists o :: o in orders && o.date > cutoff && weekday(o.date) == day {
      var o :| o in orders && o.date > cutoff && weekday(o.date) == day;
      assert o in recent;
      var i :| 0 <= i < |recent| && recent[i] == o;
    }
  }
}
