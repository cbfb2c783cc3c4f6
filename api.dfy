/** The storage service (services/api.ts): four in-memory collections and the
    read-modify-write operations on them. Persistence, JSON and the seeding of
    empty collections are not modelled; the collections are fields. */
module Api {
  import opened Types
  import opened Seqs

  /** `products.findIndex(p => p.id === id)`. */
  function ProductIndex(ps: seq<Product>, id: string): (k: int)
    ensures -1 <= k < |ps|
    ensures 0 <= k ==> ps[k].id == id
    ensures forall j :: 0 <= j < |ps| && (k < 0 || j < k) ==> ps[j].id != id
  {
    IndexOf(ps, ProductId, id)
  }

  /** `products.find(p => p.id === id)`. */
  function FindProduct(ps: seq<Product>, id: string): (r: Option<Product>)
    ensures r.None? <==> forall j :: 0 <= j < |ps| ==> ps[j].id != id
    ensures r.Some? ==> r.value in ps && r.value.id == id
  {
    var k := ProductIndex(ps, id);
    if k < 0 then None else Some(ps[k])
  }

  function OrderIndex(os: seq<Order>, id: string): int
  {
    IndexOf(os, OrderId, id)
  }

  // ---------------------------------------------------------------------
  // Specification of the collection updates
  // ---------------------------------------------------------------------

  /** saveProduct: replace the first product with the same id, or append. */
  function UpsertProduct(ps: seq<Product>, p: Product): seq<Product>
  {
    Upsert(ps, ProductId, p)
  }

  /** saveCustomer: replace the first customer with the same id, or append. */
  function UpsertCustomer(cs: seq<Customer>, c: Customer): seq<Customer>
  {
    Upsert(cs, CustomerId, c)
  }

  /** deleteProduct: keep the products whose id differs. */
  function RemoveProduct(ps: seq<Product>, id: string): seq<Product>
  {
    RemoveKey(ps, ProductId, id)
  }

  /** One step of the stock update in createOrder: the first product with the
      item's id loses `item.quantity`; an unknown id changes nothing. */
  function SellItem(ps: seq<Product>, item: OrderItem): seq<Product>
  {
    var k := ProductIndex(ps, item.productId);
    if k >= 0 then ps[k := ps[k].(stock := ps[k].stock - item.quantity)] else ps
  }

  /** The whole `order.items.forEach` of createOrder, in item order. */
  function ApplySale(ps: seq<Product>, items: seq<OrderItem>): seq<Product>
  {
    if |items| == 0 then ps else SellItem(ApplySale(ps, items[..|items| - 1]), items[|items| - 1])
  }

  /** The total quantity ordered of one product id. */
  function SoldQuantity(items: seq<OrderItem>, id: string): real
  {
    if |items| == 0 then 0.0
    else SoldQuantity(items[..|items| - 1], id)
         + (if items[|items| - 1].productId == id then items[|items| - 1].quantity else 0.0)
  }

  /** The product that findIndex selects for its id: the first with that id. */
  predicate FirstWithId(ps: seq<Product>, j: int)
    requires 0 <= j < |ps|
  {
    ProductIndex(ps, ps[j].id) == j
  }

  /** registerPurchase's product update: stock rises by the purchased quantity
      and the cost becomes the unit cost when that is positive. */
  function ApplyPurchase(ps: seq<Product>, pu: Purchase): seq<Product>
  {
    var k := ProductIndex(ps, pu.productId);
    if k < 0 then ps
    else
      var p := ps[k];
      ps[k := p.(stock := p.stock + pu.quantity,
                 cost := if pu.unitCost > 0.0 then pu.unitCost else p.cost)]
  }

  /** updateOrderStatus: the first order with the id takes the new status, and
      the courier when a non-empty one is given; any status is accepted. */
  function SetStatus(os: seq<Order>, id: string, status: OrderStatus, courier: Option<string>): seq<Order>
  {
    var k := OrderIndex(os, id);
    if k < 0 then os
    else os[k := os[k].(status := status,
                        assignedTo := if Truthy(courier) then courier else os[k].assignedTo)]
  }

  // ---------------------------------------------------------------------
  // Properties
  // ---------------------------------------------------------------------

  /** One item lowers the stock of the product findIndex selects, and no other. */
  lemma SellItemEffect(ps: seq<Product>, x: OrderItem)
    ensures var r := SellItem(ps, x);
            && |r| == |ps|
            && forall j :: 0 <= j < |ps| ==>
                 r[j] == ps[j].(stock := ps[j].stock
                                   - (if j == ProductIndex(ps, x.productId) then x.quantity else 0.0))
  {
  }

  /** A sale lowers the stock of each product that findIndex selects by the
      total quantity of its items, without clamping at zero; every other field,
      every other product and the order of the list are unchanged, and items
      with an unknown id are skipped. */
  lemma {:induction false} SaleEffect(ps: seq<Product>, items: seq<OrderItem>)
    ensures var r := ApplySale(ps, items);
            && |r| == |ps|
            && forall j :: 0 <= j < |ps| ==>
                 r[j] == ps[j].(stock := ps[j].stock
                                   - (if FirstWithId(ps, j) then SoldQuantity(items, ps[j].id) else 0.0))
    decreases |items|
  {
    if |items| > 0 {
      var init := items[..|items| - 1];
      var x := items[|items| - 1];
      var r0 := ApplySale(ps, init);
      var r := ApplySale(ps, items);
      SaleEffect(ps, init);
      SellItemEffect(r0, x);
      assert forall j :: 0 <= j < |r0| ==> ProductId(r0[j]) == ProductId(ps[j]);
      IndexOfSameKeys(r0, ps, ProductId, x.productId);
      var k := ProductIndex(ps, x.productId);
      forall j | 0 <= j < |ps|
        ensures r[j] == ps[j].(stock := ps[j].stock
                                  - (if FirstWithId(ps, j) then SoldQuantity(items, ps[j].id) else 0.0))
      {
        var d0 := if FirstWithId(ps, j) then SoldQuantity(init, ps[j].id) else 0.0;
        assert r0[j] == ps[j].(stock := ps[j].stock - d0);
        if j == k {
          assert FirstWithId(ps, j);
        } else if FirstWithId(ps, j) {
          assert ps[j].id != x.productId;
        }
      }
    }
  }

  /** Items whose product ids match no product leave the catalogue unchanged. */
  lemma {:induction false} SaleOfUnknownItems(ps: seq<Product>, items: seq<OrderItem>)
    requires forall i, j :: 0 <= i < |items| && 0 <= j < |ps| ==> items[i].productId != ps[j].id
    ensures ApplySale(ps, items) == ps
    decreases |items|
  {
    if |items| > 0 {
      SaleOfUnknownItems(ps, items[..|items| - 1]);
    }
  }

  /** What a purchase does to the catalogue; an unknown id changes nothing. */
  lemma PurchaseEffect(ps: seq<Product>, pu: Purchase)
    ensures var r := ApplyPurchase(ps, pu);
            var k := ProductIndex(ps, pu.productId);
            && |r| == |ps|
            && (k < 0 ==> r == ps)
            && (k >= 0 ==>
                  && r[k].stock == ps[k].stock + pu.quantity
                  && (pu.unitCost > 0.0 ==> r[k].cost == pu.unitCost)
                  && (pu.unitCost <= 0.0 ==> r[k].cost == ps[k].cost)
                  && r[k].(stock := ps[k].stock, cost := ps[k].cost) == ps[k]
                  && forall j :: 0 <= j < |ps| && j != k ==> r[j] == ps[j])
  {
  }

  /** Selling exactly what was just purchased restores every stock level. */
  lemma PurchaseThenSaleRestoresStock(ps: seq<Product>, pu: Purchase, item: OrderItem)
    requires item.productId == pu.productId && item.quantity == pu.quantity
    ensures var r := ApplySale(ApplyPurchase(ps, pu), [item]);
            |r| == |ps| && forall j :: 0 <= j < |ps| ==> r[j].stock == ps[j].stock
  {
    var r1 := ApplyPurchase(ps, pu);
    assert [item][..0] == [];
    assert forall j :: 0 <= j < |r1| ==> ProductId(r1[j]) == ProductId(ps[j]);
    IndexOfSameKeys(r1, ps, ProductId, pu.productId);
  }

  /** Saving a product makes it the one found under its id, and saving twice
      is saving once. */
  lemma SaveProductFound(ps: seq<Product>, p: Product)
    ensures FindProduct(UpsertProduct(ps, p), p.id) == Some(p)
    ensures UpsertProduct(UpsertProduct(ps, p), p) == UpsertProduct(ps, p)
  {
    UpsertEffect(ps, ProductId, p);
    UpsertIdempotent(ps, ProductId, p);
  }

  /** deleteProduct removes every product with the id and nothing else, and
      keeps the rest in order. */
  lemma DeleteProductEffect(ps: seq<Product>, id: string)
    ensures forall p :: p in RemoveProduct(ps, id) <==> p in ps && p.id != id
    ensures FindProduct(RemoveProduct(ps, id), id).None?
    ensures IsSubseq(RemoveProduct(ps, id), ps)
    ensures forall p :: multiset(RemoveProduct(ps, id))[p] == if p.id != id then multiset(ps)[p] else 0
  {
    RemoveKeyIsSubseq(ps, ProductId, id);
    RemoveKeyCount(ps, ProductId, id);
    var r := RemoveProduct(ps, id);
    assert forall j :: 0 <= j < |r| ==> r[j] in r;
  }

  /** A status update changes only the status and courier of the first order
      with the id, whatever its current status; an unknown id changes nothing.
      Order totals, and hence their sum, are untouched. */
  lemma StatusUpdateEffect(os: seq<Order>, id: string, status: OrderStatus, courier: Option<string>)
    ensures var r := SetStatus(os, id, status, courier);
            var k := OrderIndex(os, id);
            && |r| == |os|
            && (k < 0 ==> r == os)
            && (k >= 0 ==>
                  && os[k].id == id
                  && r[k].status == status
                  && r[k].assignedTo == (if Truthy(courier) then courier else os[k].assignedTo)
                  && r[k].(status := os[k].status, assignedTo := os[k].assignedTo) == os[k]
                  && forall j :: 0 <= j < |os| && j != k ==> r[j] == os[j])
            && Sum(r, OrderTotal) == Sum(os, OrderTotal)
  {
    var k := OrderIndex(os, id);
    if k >= 0 {
      SumUpdate(os, k, SetStatus(os, id, status, courier)[k], OrderTotal);
    }
  }

  // ---------------------------------------------------------------------
  // The store
  // ---------------------------------------------------------------------

  class Store {
    var products: seq<Product>
    var orders: seq<Order>
    var purchases: seq<Purchase>
    var customers: seq<Customer>

    constructor (products: seq<Product>, orders: seq<Order>, purchases: seq<Purchase>, customers: seq<Customer>)
      ensures this.products == products && this.orders == orders
      ensures this.purchases == purchases && this.customers == customers
    {
      this.products := products;
      this.orders := orders;
      this.purchases := purchases;
      this.customers := customers;
    }

    method SaveProduct(product: Product)
      modifies this
      ensures products == UpsertProduct(old(products), product)
      ensures orders == old(orders) && purchases == old(purchases) && customers == old(customers)
    {
      var index := ProductIndex(products, product.id);
      if index >= 0 {
        products := products[index := product];
      } else {
        products := products + [product];
      }
    }

    method DeleteProduct(id: string)
      modifies this
      ensures products == RemoveProduct(old(products), id)
      ensures orders == old(orders) && purchases == old(purchases) && customers == old(customers)
    {
      products := RemoveKey(products, ProductId, id);
    }

    /** Puts the order at the front and lowers stock item by item. */
    method CreateOrder(order: Order)
      modifies this
      ensures orders == [order] + old(orders)
      ensures products == ApplySale(old(products), order.items)
      ensures purchases == old(purchases) && customers == old(customers)
    {
      orders := [order] + orders;
      var i := 0;
      while i < |order.items|
        invariant 0 <= i <= |order.items|
        invariant products == ApplySale(old(products), order.items[..i])
        invariant orders == [order] + old(orders)
        invariant purchases == old(purchases) && customers == old(customers)
      {
        var item := order.items[i];
        var pIndex := ProductIndex(products, item.productId);
        if pIndex >= 0 {
          products := products[pIndex := products[pIndex].(stock := products[pIndex].stock - item.quantity)];
        }
        assert order.items[..i + 1][..i] == order.items[..i];
        i := i + 1;
      }
      assert order.items[..i] == order.items;
    }

    /** Never touches stock: cancelling does not restock. */
    method UpdateOrderStatus(orderId: string, status: OrderStatus, assignedTo: Option<string>)
      modifies this
      ensures orders == SetStatus(old(orders), orderId, status, assignedTo)
      ensures products == old(products) && purchases == old(purchases) && customers == old(customers)
    {
      var k := OrderIndex(orders, orderId);
      if k >= 0 {
        var order := orders[k];
        order := order.(status := status);
        if Truthy(assignedTo) {
          order := order.(assignedTo := assignedTo);
        }
        orders := orders[k := order];
      }
    }

    method SaveCustomer(customer: Customer)
      modifies this
      ensures customers == UpsertCustomer(old(customers), customer)
      ensures products == old(products) && orders == old(orders) && purchases == old(purchases)
    {
      var index := IndexOf(customers, CustomerId, customer.id);
      if index >= 0 {
        customers := customers[index := customer];
      } else {
        customers := customers + [customer];
      }
    }

    /** Puts the purchase at the front and restocks its product. */
    method RegisterPurchase(purchase: Purchase)
      modifies this
      ensures purchases == [purchase] + old(purchases)
      ensures products == ApplyPurchase(old(products), purchase)
      ensures orders == old(orders) && customers == old(customers)
    {
      purchases := [purchase] + purchases;
      var pIndex := ProductIndex(products, purchase.productId);
      if pIndex >= 0 {
        var p := products[pIndex];
        p := p.(stock := p.stock + purchase.quantity);
        if purchase.unitCost > 0.0 {
          p := p.(cost := purchase.unitCost);
        }
        products := products[pIndex := p];
      }
    }
  }
}
