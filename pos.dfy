/** The point-of-sale page (pages/POS.tsx): entry presets, turning an entered
    quantity into a cart line (pound to kilogram conversion and labels), the
    cart itself, and checkout into an Order.

    Numbers are rendered into labels by `fmt`, a stand-in for JavaScript's
    number-to-string conversion. */
module Pos {
  import opened Types
  import opened Seqs
  import opened Api

  /** Kilograms in one pound, used for the cart quantity. */
  const KgPerPound: real := 0.453592
  /** Pounds in one kilogram, used only by the price preview. */
  const PoundsPerKg: real := 2.20462

  /** The entry mode: a UnitType, or the pound mode 'LB'. The pound mode is
      not UnitType.Libra, whose value is 'Lb'. */
  datatype UnitMode = Base(unit: UnitType) | Pound

  /** What the add-to-cart dialog holds: the entered number and its mode. */
  datatype Entry = Entry(quantity: real, mode: UnitMode)

  predicate IsWeighed(c: ProductCategory)
  {
    c == Pollo || c == Carne || c == Queso
  }

  /** handleProductClick: eggs start at a dozen units, weighed goods at one
      kilogram, anything else at one unit. */
  function EntryDefaults(p: Product): (e: Entry)
    ensures e.mode != Pound
    ensures e == Entry(12.0, Base(Unidad)) <==> p.category == Huevos
    ensures e.mode == Base(Kg) <==> IsWeighed(p.category)
    ensures p.category != Huevos ==> e.quantity == 1.0 && e.mode in {Base(Kg), Base(Unidad)}
  {
    if p.category == Huevos then Entry(12.0, Base(Unidad))
    else if IsWeighed(p.category) then Entry(1.0, Base(Kg))
    else Entry(1.0, Base(Unidad))
  }

  /** The egg labels: named packs, else "<n> Und". */
  function EggLabel(q: real, fmt: real -> string): string
  {
    if q == 1.0 then "Unidad"
    else if q == 12.0 then "Docena"
    else if q == 15.0 then "Quincena"
    else if q == 30.0 then "Cubeta"
    else fmt(q) + " Und"
  }

  /** The label of a line entered outside pound mode. */
  function DisplayLabel(p: Product, q: real, fmt: real -> string): string
  {
    if p.category == Huevos then EggLabel(q, fmt)
    else if IsWeighed(p.category) then fmt(q) + " Kg"
    else UnitName(p.unit)
  }

  /** The line confirmAddToCart builds: in pound mode the quantity is
      converted to kilograms and labelled in pounds; otherwise the quantity
      is kept exactly. The product, and so its per-base-unit price, is copied
      unchanged. No quantity is rejected. */
  function MakeLine(p: Product, e: Entry, fmt: real -> string): CartItem
  {
    if e.mode == Pound then CartItem(p, e.quantity * KgPerPound, Some(fmt(e.quantity) + " Lb"))
    else CartItem(p, e.quantity, Some(DisplayLabel(p, e.quantity, fmt)))
  }

  /** What a line is charged: price per base unit times base quantity. */
  function LineCharge(line: CartItem): real
  {
    line.product.price * line.quantity
  }

  /** The line keeps the product; its quantity is the entered number, scaled
      by 0.453592 in pound mode only; so is its charge. */
  lemma MakeLineEffect(p: Product, e: Entry, fmt: real -> string)
    ensures var line := MakeLine(p, e, fmt);
            && line.product == p
            && line.quantity == (if e.mode == Pound then e.quantity * KgPerPound else e.quantity)
            && LineCharge(line) == p.price * line.quantity
            && (e.mode == Pound ==> line.salesUnit == Some(fmt(e.quantity) + " Lb"))
  {
  }

  /** Converting back with the same constant recovers the entered pounds. */
  lemma PoundRoundTrip(p: Product, e: Entry, fmt: real -> string)
    requires e.mode == Pound
    ensures MakeLine(p, e, fmt).quantity / KgPerPound == e.quantity
  {
  }

  lemma LabelEndsWith(s: string, suffix: string, other: string)
    requires |other| >= |suffix| > 0
    requires other[|other| - |suffix|..] != suffix
    ensures s + suffix != other
  {
  }

  /** For eggs the label names the pack exactly when the count is that pack's:
      a generated "<n> Und" label never collides with a pack name. */
  lemma EggLabelDeterminesCount(p: Product, q: real, fmt: real -> string)
    requires p.category == Huevos
    ensures DisplayLabel(p, q, fmt) == "Unidad" <==> q == 1.0
    ensures DisplayLabel(p, q, fmt) == "Docena" <==> q == 12.0
    ensures DisplayLabel(p, q, fmt) == "Quincena" <==> q == 15.0
    ensures DisplayLabel(p, q, fmt) == "Cubeta" <==> q == 30.0
  {
    LabelEndsWith(fmt(q), " Und", "Unidad");
    LabelEndsWith(fmt(q), " Und", "Docena");
    LabelEndsWith(fmt(q), " Und", "Quincena");
    LabelEndsWith(fmt(q), " Und", "Cubeta");
  }

  /** Confirming the preset entry unchanged: eggs give a dozen-unit line
      labelled "Docena"; weighed goods one kilogram labelled "<1> Kg"; other
      products one unit labelled with the product's unit. */
  lemma DefaultEntryLine(p: Product, fmt: real -> string)
    ensures var line := MakeLine(p, EntryDefaults(p), fmt);
            && (p.category == Huevos ==> line == CartItem(p, 12.0, Some("Docena")))
            && (IsWeighed(p.category) ==> line == CartItem(p, 1.0, Some(fmt(1.0) + " Kg")))
            && (p.category == Otros ==> line == CartItem(p, 1.0, Some(UnitName(p.unit))))
  {
  }

  // ---------------------------------------------------------------------
  // Price preview (getModalPriceDisplay)
  // ---------------------------------------------------------------------

  /** The preview as written: in pound mode it divides by 2.20462. */
  function ModalPrice(selected: Option<Product>, e: Entry): real
  {
    match selected
    case None => 0.0
    case Some(p) =>
      if e.mode == Pound then (p.price / PoundsPerKg) * e.quantity else p.price * e.quantity
  }

  /** The preview shows a different amount from what the cart then charges for
      any priced, non-zero pound entry: 2.20462 and 0.453592 are not exact
      reciprocals. */
  lemma ModalPriceDiffersFromCharge(p: Product, e: Entry, fmt: real -> string)
    requires e.mode == Pound && p.price != 0.0 && e.quantity != 0.0
    ensures ModalPrice(Some(p), e) != LineCharge(MakeLine(p, e, fmt))
  {
    var x := p.price * e.quantity;
    assert x != 0.0;
    assert ModalPrice(Some(p), e) == x / PoundsPerKg;
    assert LineCharge(MakeLine(p, e, fmt)) == x * KgPerPound;
    assert KgPerPound * PoundsPerKg != 1.0;
  }

  /** The preview computed with the cart's own constant. */
  function ConsistentModalPrice(selected: Option<Product>, e: Entry): real
  {
    match selected
    case None => 0.0
    case Some(p) =>
      if e.mode == Pound then p.price * (e.quantity * KgPerPound) else p.price * e.quantity
  }

  /** The consistent preview is exactly what the cart line is charged. */
  lemma ConsistentModalPriceMatchesCharge(p: Product, e: Entry, fmt: real -> string)
    ensures ConsistentModalPrice(Some(p), e) == LineCharge(MakeLine(p, e, fmt))
  {
  }

  // ---------------------------------------------------------------------
  // The cart
  // ---------------------------------------------------------------------

  /** `cart.reduce((acc, item) => acc + item.price * item.quantity, 0)`. */
  function CartTotal(lines: seq<CartItem>): real
  {
    Sum(lines, LineCharge)
  }

  /** `prev.findIndex(item => item.id === add.id && item.salesUnit === add.salesUnit)`. */
  function MatchIndex(lines: seq<CartItem>, item: CartItem): (k: int)
    ensures -1 <= k < |lines|
    ensures 0 <= k ==> lines[k].product.id == item.product.id && lines[k].salesUnit == item.salesUnit
    ensures forall j :: 0 <= j < |lines| && (k < 0 || j < k) ==>
              lines[j].product.id != item.product.id || lines[j].salesUnit != item.salesUnit
  {
    if |lines| == 0 then -1
    else if lines[0].product.id == item.product.id && lines[0].salesUnit == item.salesUnit then 0
    else
      var r := MatchIndex(lines[1..], item);
      assert forall j :: 1 <= j < |lines| ==> lines[j] == lines[1..][j - 1];
      if r < 0 then -1 else r + 1
  }

  /** addToCartDirect as written: the shallow copy shares the line objects, so
      the quantity increment lands on the earlier matching line, and the new
      line is appended anyway. */
  function AddAsWritten(lines: seq<CartItem>, item: CartItem): seq<CartItem>
  {
    var k := MatchIndex(lines, item);
    (if k >= 0 then lines[k := lines[k].(quantity := lines[k].quantity + item.quantity)] else lines)
    + [item]
  }

  /** Adding always appends exactly the new line; an earlier line with the same
      id and label also grows by the added quantity, so the total grows by the
      new line's charge plus, in that case, a second charge of the quantity. */
  lemma AddAsWrittenEffect(lines: seq<CartItem>, item: CartItem)
    ensures var r := AddAsWritten(lines, item);
            var k := MatchIndex(lines, item);
            && |r| == |lines| + 1
            && r[|lines|] == item
            && (k >= 0 ==> r[k] == lines[k].(quantity := lines[k].quantity + item.quantity))
            && (forall j :: 0 <= j < |lines| && j != k ==> r[j] == lines[j])
            && CartTotal(r) == CartTotal(lines) + LineCharge(item)
                               + (if k >= 0 then lines[k].product.price * item.quantity else 0.0)
  {
    var k := MatchIndex(lines, item);
    var merged := if k >= 0 then lines[k := lines[k].(quantity := lines[k].quantity + item.quantity)] else lines;
    assert AddAsWritten(lines, item) == merged + [item];
    MergedTotal(lines, k, item.quantity);
    SumSnoc(merged, item, LineCharge);
  }

  /** The total after the line at k (if any) grows by `extra`. */
  lemma MergedTotal(lines: seq<CartItem>, k: int, extra: real)
    requires -1 <= k < |lines|
    ensures var merged := if k >= 0 then lines[k := lines[k].(quantity := lines[k].quantity + extra)] else lines;
            CartTotal(merged) == CartTotal(lines) + (if k >= 0 then lines[k].product.price * extra else 0.0)
  {
    if k >= 0 {
      GrowCharge(lines[k], extra);
      SumUpdate(lines, k, lines[k].(quantity := lines[k].quantity + extra), LineCharge);
    }
  }

  /** Growing a line's quantity adds the price times the extra quantity. */
  lemma GrowCharge(line: CartItem, extra: real)
    ensures LineCharge(line.(quantity := line.quantity + extra)) == LineCharge(line) + line.product.price * extra
  {
  }

  /** The double charge: adding a line equal to the only line in the cart
      charges it three times, not twice. */
  lemma AddAsWrittenChargesTwice(line: CartItem)
    requires LineCharge(line) != 0.0
    ensures CartTotal(AddAsWritten([line], line)) == 3.0 * LineCharge(line)
    ensures CartTotal(AddAsWritten([line], line)) != CartTotal([line, line])
  {
    AddAsWrittenEffect([line], line);
    assert CartTotal([line]) == LineCharge(line) by {
      SumSnoc([], line, LineCharge);
      assert [] + [line] == [line];
    }
    SumSnoc([line], line, LineCharge);
    assert [line] + [line] == [line, line];
  }

  /** The add the surrounding comments describe: a new line, never merged. */
  function AddLine(lines: seq<CartItem>, item: CartItem): (r: seq<CartItem>)
    ensures |r| == |lines| + 1 && r[..|lines|] == lines && r[|lines|] == item
    ensures CartTotal(r) == CartTotal(lines) + LineCharge(item)
  {
    SumSnoc(lines, item, LineCharge);
    assert (lines + [item])[..|lines|] == lines;
    lines + [item]
  }

  /** `prev.filter((_, idx) => idx !== i)`. */
  function RemoveAt<T>(s: seq<T>, i: int): seq<T>
  {
    if |s| == 0 then [] else (if i == 0 then [] else [s[0]]) + RemoveAt(s[1..], i - 1)
  }

  /** Removing index i drops exactly that line and keeps the others in order;
      an index outside the cart leaves it unchanged. */
  lemma {:induction false} RemoveAtEffect<T>(s: seq<T>, i: int)
    ensures RemoveAt(s, i) == if 0 <= i < |s| then s[..i] + s[i + 1..] else s
    decreases |s|
  {
    if |s| > 0 {
      RemoveAtEffect(s[1..], i - 1);
      if 0 < i < |s| {
        assert [s[0]] + s[1..][..i - 1] == s[..i];
        assert s[1..][i..] == s[i + 1..];
      } else if i == 0 {
        assert s[1..] == s[i + 1..];
      } else {
        assert [s[0]] + s[1..] == s;
      }
    }
  }

  /** Removing a line lowers the total by exactly that line's charge. */
  lemma RemoveLowersTotal(lines: seq<CartItem>, i: int)
    requires 0 <= i < |lines|
    ensures CartTotal(RemoveAt(lines, i)) == CartTotal(lines) - LineCharge(lines[i])
  {
    RemoveAtEffect(lines, i);
    SumRemove(lines, i, LineCharge);
  }

  /** The cart state of the page. */
  class Cart {
    var lines: seq<CartItem>

    constructor ()
      ensures lines == []
    {
      lines := [];
    }

    function Total(): real
      reads this
    {
      CartTotal(lines)
    }

    /** addToCartDirect as written. */
    method AddToCartDirect(item: CartItem)
      modifies this
      ensures lines == AddAsWritten(old(lines), item)
    {
      var existingIndex := MatchIndex(lines, item);
      if existingIndex >= 0 {
        var line := lines[existingIndex];
        lines := lines[existingIndex := line.(quantity := line.quantity + item.quantity)];
      }
      lines := lines + [item];
    }

    /** The intended add: append only. */
    method AppendLine(item: CartItem)
      modifies this
      ensures lines == AddLine(old(lines), item)
      ensures Total() == old(Total()) + LineCharge(item)
    {
      lines := lines + [item];
    }

    /** confirmAddToCart: nothing happens without a selected product;
        otherwise the built line goes through addToCartDirect as written, so
        an earlier line of the same product and label also grows. */
    method ConfirmAddToCart(selected: Option<Product>, e: Entry, fmt: real -> string)
      modifies this
      ensures selected.None? ==> lines == old(lines)
      ensures selected.Some? ==> lines == AddAsWritten(old(lines), MakeLine(selected.value, e, fmt))
      ensures selected.Some? ==>
                var line := MakeLine(selected.value, e, fmt);
                var k := MatchIndex(old(lines), line);
                Total() == old(Total()) + LineCharge(line)
                           + (if k >= 0 then old(lines)[k].product.price * line.quantity else 0.0)
    {
      if selected.Some? {
        var line := MakeLine(selected.value, e, fmt);
        AddAsWrittenEffect(lines, line);
        AddToCartDirect(line);
      }
    }

    /** The intended confirm: the built line is added as a line of its own
        and the total grows by exactly its charge. */
    method ConfirmAddToCartIntended(selected: Option<Product>, e: Entry, fmt: real -> string)
      modifies this
      ensures selected.None? ==> lines == old(lines)
      ensures selected.Some? ==> lines == AddLine(old(lines), MakeLine(selected.value, e, fmt))
      ensures selected.Some? ==> Total() == old(Total()) + LineCharge(MakeLine(selected.value, e, fmt))
    {
      if selected.Some? {
        AppendLine(MakeLine(selected.value, e, fmt));
      }
    }

    /** The clear button: the cart becomes empty, so its total is 0. */
    method Clear()
      modifies this
      ensures lines == [] && Total() == 0.0
    {
      lines := [];
    }

    method RemoveFromCart(cartIndex: int)
      modifies this
      ensures lines == RemoveAt(old(lines), cartIndex)
    {
      lines := RemoveAt(lines, cartIndex);
    }
  }

  // ---------------------------------------------------------------------
  // Checkout (handleCheckout)
  // ---------------------------------------------------------------------

  datatype DeliveryInfo = DeliveryInfo(name: string, phone: string, address: string)

  /** `item.salesUnit || item.unit`. */
  function SalesLabel(line: CartItem): string
  {
    if Truthy(line.salesUnit) then line.salesUnit.value else UnitName(line.product.unit)
  }

  /** One cart line as an order item; no cost is snapshotted. */
  function ToOrderItem(line: CartItem): OrderItem
  {
    OrderItem(line.product.id, line.product.name + " (" + SalesLabel(line) + ")",
              line.quantity, line.product.price, None, line.product.price * line.quantity)
  }

  /** What an order item records of its cart line: the product id, the name
      followed by the sales label in parentheses, the base quantity and the
      current price, charged price times quantity, with no recorded cost. */
  predicate Converted(item: OrderItem, line: CartItem)
  {
    && item.productId == line.product.id
    && item.productName == line.product.name + " (" + SalesLabel(line) + ")"
    && item.quantity == line.quantity
    && item.priceAtSale == line.product.price
    && item.subtotal == item.priceAtSale * item.quantity
    && item.costAtSale.None?
  }

  /** `cart.map(...)`: one item per line, in order, each converted from its
      line. */
  function ToOrderItems(lines: seq<CartItem>): (items: seq<OrderItem>)
    ensures |items| == |lines|
    ensures forall i :: 0 <= i < |lines| ==> Converted(items[i], lines[i])
  {
    seq(|lines|, i requires 0 <= i < |lines| => ToOrderItem(lines[i]))
  }

  lemma {:induction false} ItemsSumToCartTotal(lines: seq<CartItem>)
    ensures Sum(ToOrderItems(lines), ItemSubtotal) == CartTotal(lines)
    decreases |lines|
  {
    if |lines| > 0 {
      var init := lines[..|lines| - 1];
      ItemsSumToCartTotal(init);
      assert ToOrderItems(lines)[..|lines| - 1] == ToOrderItems(init);
    }
  }

  /** A walk-in delivery customer typed by name is registered at checkout. */
  function CheckoutCustomer(orderType: OrderType, selected: Option<Customer>, info: DeliveryInfo, newId: string): (c: Option<Customer>)
    ensures c.Some? <==> orderType == Delivery && selected.None? && info.name != ""
    ensures c.Some? ==> c.value == Customer(newId, info.name, info.phone, info.address, None, false, 0.0)
  {
    if orderType == Delivery && selected.None? && info.name != "" then
      Some(Customer(newId, info.name, info.phone, info.address, None, false, 0.0))
    else None
  }

  /** The order handleCheckout builds from a non-empty cart. */
  function BuildOrder(lines: seq<CartItem>, orderType: OrderType, payment: PaymentMethod,
                      selected: Option<Customer>, info: DeliveryInfo, created: Option<Customer>,
                      orderId: string, now: int): Order
  {
    var name :=
      if orderType == Delivery then (if info.name != "" then info.name else "Cliente WhatsApp")
      else if selected.Some? then selected.value.name else "Cliente Mostrador";
    var customerId :=
      if created.Some? then Some(created.value.id)
      else if selected.Some? then Some(selected.value.id) else None;
    var phone := if selected.Some? && selected.value.phone != "" then selected.value.phone else info.phone;
    var address := if selected.Some? && selected.value.address != "" then selected.value.address else info.address;
    Order(orderId, now, name, customerId, Some(phone), Some(address), ToOrderItems(lines),
          CartTotal(lines), if orderType == Delivery then Pendiente else Entregado,
          orderType, payment, None)
  }

  lemma BuildOrderParts(lines: seq<CartItem>, orderType: OrderType, payment: PaymentMethod,
                        selected: Option<Customer>, info: DeliveryInfo, created: Option<Customer>,
                        orderId: string, now: int)
    ensures var o := BuildOrder(lines, orderType, payment, selected, info, created, orderId, now);
            && o.items == ToOrderItems(lines) && o.total == CartTotal(lines)
            && o.status == (if orderType == Delivery then Pendiente else Entregado)
            && o.orderType == orderType
            && (orderType == Delivery && info.name != "" ==> o.customerName == info.name)
            && (orderType == Delivery && info.name == "" ==> o.customerName == "Cliente WhatsApp")
            && (orderType != Delivery && selected.Some? ==> o.customerName == selected.value.name)
            && (orderType != Delivery && selected.None? ==> o.customerName == "Cliente Mostrador")
            && (created.Some? ==> o.customerId == Some(created.value.id))
            && (created.None? && selected.Some? ==> o.customerId == Some(selected.value.id))
            && (created.None? && selected.None? ==> o.customerId.None?)
  {
  }

  /** Each item records the product's name with its sales label and is
      charged price times base quantity; the total is the sum of the items;
      a delivery is named after the typed name or "Cliente WhatsApp", a
      counter sale after the selected customer or "Cliente Mostrador"; a
      customer created at checkout is the order's customer; delivery orders
      start pending and counter sales delivered. */
  lemma CheckoutOrderFacts(lines: seq<CartItem>, orderType: OrderType, payment: PaymentMethod,
                           selected: Option<Customer>, info: DeliveryInfo, created: Option<Customer>,
                           orderId: string, now: int)
    ensures var o := BuildOrder(lines, orderType, payment, selected, info, created, orderId, now);
            && |o.items| == |lines|
            && (forall i :: 0 <= i < |lines| ==> Converted(o.items[i], lines[i]))
            && o.total == Sum(o.items, ItemSubtotal)
            && o.status == (if orderType == Delivery then Pendiente else Entregado)
            && o.orderType == orderType
    ensures var o := BuildOrder(lines, orderType, payment, selected, info, created, orderId, now);
            && (orderType == Delivery && info.name != "" ==> o.customerName == info.name)
            && (orderType == Delivery && info.name == "" ==> o.customerName == "Cliente WhatsApp")
            && (orderType != Delivery && selected.Some? ==> o.customerName == selected.value.name)
            && (orderType != Delivery && selected.None? ==> o.customerName == "Cliente Mostrador")
            && (created.Some? ==> o.customerId == Some(created.value.id))
            && (created.None? && selected.Some? ==> o.customerId == Some(selected.value.id))
            && (created.None? && selected.None? ==> o.customerId.None?)
  {
    var o := BuildOrder(lines, orderType, payment, selected, info, created, orderId, now);
    BuildOrderParts(lines, orderType, payment, selected, info, created, orderId, now);
    ItemsSumToCartTotal(lines);
  }

  /** handleCheckout: an empty cart does nothing; otherwise the delivery
      customer is saved if new, the order is created (stock falls) and the
      cart is emptied. */
  method Checkout(cart: Cart, store: Store, orderType: OrderType, payment: PaymentMethod,
                  selected: Option<Customer>, info: DeliveryInfo,
                  newCustomerId: string, orderId: string, now: int)
    returns (placed: Option<Order>)
    modifies cart, store
    ensures old(cart.lines) == [] ==>
              && placed.None? && cart.lines == []
              && store.products == old(store.products) && store.orders == old(store.orders)
              && store.customers == old(store.customers) && store.purchases == old(store.purchases)
    ensures old(cart.lines) != [] ==>
              var created := CheckoutCustomer(orderType, selected, info, newCustomerId);
              var order := BuildOrder(old(cart.lines), orderType, payment, selected, info, created, orderId, now);
              && placed == Some(order)
              && cart.lines == []
              && store.orders == [order] + old(store.orders)
              && store.products == ApplySale(old(store.products), order.items)
              && store.customers == (if created.Some? then UpsertCustomer(old(store.customers), created.value)
                                     else old(store.customers))
              && store.purchases == old(store.purchases)
  {
    if |cart.lines| == 0 {
      return None;
    }
    var created := CheckoutCustomer(orderType, selected, info, newCustomerId);
    if created.Some? {
      store.SaveCustomer(created.value);
    }
    var order := BuildOrder(cart.lines, orderType, payment, selected, info, created, orderId, now);
    store.CreateOrder(order);
    cart.lines := [];
    placed := Some(order);
  }
}
