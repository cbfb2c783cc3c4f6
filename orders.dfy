/** The delivery page (pages/Orders.tsx): the delivery view, the status
    actions each order card offers, the cancel confirmation and the
    newest-first reload. */
module Orders {
  import opened Types
  import opened Seqs
  import opened Api
  import opened Sorting

  /** The status tab: `None` is 'ALL'. */
  type StatusFilter = Option<OrderStatus>

  predicate InDeliveryView(o: Order, filter: StatusFilter)
  {
    o.orderType == Delivery && (filter.None? || o.status == filter.value)
  }

  /** filteredOrders. */
  function DeliveryView(os: seq<Order>, filter: StatusFilter): seq<Order>
  {
    Filter(os, o => InDeliveryView(o, filter))
  }

  /** The view lists exactly the delivery orders with the chosen status (any
      status under 'ALL'), in the loaded order. */
  lemma DeliveryViewContents(os: seq<Order>, filter: StatusFilter)
    ensures forall o :: o in DeliveryView(os, filter) <==>
              o in os && o.orderType == Delivery && (filter.None? || o.status == filter.value)
    ensures IsSubseq(DeliveryView(os, filter), os)
    ensures forall o :: multiset(DeliveryView(os, filter))[o] ==
              if o.orderType == Delivery && (filter.None? || o.status == filter.value) then multiset(os)[o] else 0
  {
    FilterIsSubseq(os, o => InDeliveryView(o, filter));
    FilterCount(os, o => InDeliveryView(o, filter));
  }

  predicate Terminal(s: OrderStatus)
  {
    s == Entregado || s == Cancelado
  }

  /** The statuses an order card offers buttons for. */
  function Actions(s: OrderStatus): (r: set<OrderStatus>)
    ensures Terminal(s) ==> r == {}
    ensures EnPreparacion in r <==> s == Pendiente
    ensures EnCamino in r <==> s == Pendiente || s == EnPreparacion
    ensures Entregado in r <==> s == EnCamino
    ensures Cancelado in r <==> !Terminal(s)
    ensures Pendiente !in r
  {
    if Terminal(s) then {}
    else
      (if s == Pendiente then {EnPreparacion} else {})
      + (if s == Pendiente || s == EnPreparacion then {EnCamino} else {})
      + (if s == EnCamino then {Entregado} else {})
      + {Cancelado}
  }

  /** Progress along the delivery route. */
  function Rank(s: OrderStatus): nat
  {
    match s
    case Pendiente => 0
    case EnPreparacion => 1
    case EnCamino => 2
    case Entregado => 3
    case Cancelado => 4
  }

  /** Every offered transition moves forward, so following the buttons
      never revisits a status and ends in a terminal one. */
  lemma ActionsMoveForward(s: OrderStatus, t: OrderStatus)
    requires t in Actions(s)
    ensures Rank(s) < Rank(t)
    ensures t != s
  {
  }

  /** loadOrders: the fetched orders sorted in place, newest first. */
  method LoadOrders(store: Store) returns (view: seq<Order>)
    ensures NewestFirst(view, OrderDate)
    ensures multiset(view) == multiset(store.orders)
  {
    var data := store.orders;
    var a := new Order[|data|](i requires 0 <= i < |data| => data[i]);
    assert a[..] == data;
    SortNewestFirst(a, OrderDate);
    view := a[..];
  }

  /** handleStatusChange: a cancellation the user does not confirm changes
      nothing; otherwise the status is set (no courier is passed) and the
      orders are reloaded. */
  method HandleStatusChange(store: Store, orderId: string, newStatus: OrderStatus, confirmed: bool)
    returns (view: Option<seq<Order>>)
    modifies store
    ensures newStatus == Cancelado && !confirmed ==>
              view.None? && store.orders == old(store.orders)
    ensures !(newStatus == Cancelado && !confirmed) ==>
              store.orders == SetStatus(old(store.orders), orderId, newStatus, None)
              && view.Some? && NewestFirst(view.value, OrderDate)
              && multiset(view.value) == multiset(store.orders)
    ensures store.products == old(store.products) && store.purchases == old(store.purchases)
    ensures store.customers == old(store.customers)
  {
    if newStatus == Cancelado && !confirmed {
      return None;
    }
    store.UpdateOrderStatus(orderId, newStatus, None);
    var loaded := LoadOrders(store);
    view := Some(loaded);
  }
}
