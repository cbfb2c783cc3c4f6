/** The business enums and records of the point-of-sale app (types.ts).
    Money and quantities are `real`, dates are integer timestamps, and a
    TypeScript optional field is an `Option`. */
module Types {

  datatype Option<+T> = None | Some(value: T)

  /** Value of an optional string, or '' when absent (the `x || ''` idiom). */
  function OrEmpty(s: Option<string>): string
  {
    match s
    case Some(v) => v
    case None => ""
  }

  /** An optional string is truthy in JavaScript when present and non-empty. */
  predicate Truthy(s: Option<string>)
  {
    s.Some? && s.value != ""
  }

  datatype ProductCategory = Huevos | Pollo | Queso | Carne | Otros

  datatype UnitType = Unidad | Kg | Libra | Bandeja | Litro

  /** The string value of each UnitType member. */
  function UnitName(u: UnitType): string
  {
    match u
    case Unidad => "Unidad"
    case Kg => "Kg"
    case Libra => "Lb"
    case Bandeja => "Bandeja"
    case Litro => "Litro"
  }

  /** Closed set of five delivery states. */
  datatype OrderStatus = Pendiente | EnPreparacion | EnCamino | Entregado | Cancelado

  /** Counter sale or delivery. */
  datatype OrderType = Pos | Delivery

  datatype PaymentMethod = Efectivo | Transferencia | YapePlin | Tarjeta

  /** Price and cost are per base unit; stock is in the base unit and may be
      fractional or negative. */
  datatype Product = Product(
    id: string,
    name: string,
    category: ProductCategory,
    unit: UnitType,
    price: real,
    cost: real,
    stock: real,
    minStock: real)

  datatype Purchase = Purchase(
    id: string,
    date: int,
    productId: string,
    productName: string,
    quantity: real,
    unitCost: real,
    totalCost: real,
    supplier: Option<string>,
    notes: Option<string>)

  datatype Customer = Customer(
    id: string,
    name: string,
    phone: string,
    address: string,
    notes: Option<string>,
    isFrequent: bool,
    totalPurchases: real)

  /** A cart line: the product snapshot it was built from, the quantity in the
      base unit and an optional sales-unit label. */
  datatype CartItem = CartItem(product: Product, quantity: real, salesUnit: Option<string>)

  /** A posted order line; `costAtSale` is the only optional field. */
  datatype OrderItem = OrderItem(
    productId: string,
    productName: string,
    quantity: real,
    priceAtSale: real,
    costAtSale: Option<real>,
    subtotal: real)

  datatype Order = Order(
    id: string,
    date: int,
    customerName: string,
    customerId: Option<string>,
    phone: Option<string>,
    address: Option<string>,
    items: seq<OrderItem>,
    total: real,
    status: OrderStatus,
    orderType: OrderType,
    paymentMethod: PaymentMethod,
    assignedTo: Option<string>)

  // Field projections, passed to the generic sequence operations.
  function ProductId(p: Product): string { p.id }
  function CustomerId(c: Customer): string { c.id }
  function OrderId(o: Order): string { o.id }
  function OrderTotal(o: Order): real { o.total }
  function OrderDate(o: Order): int { o.date }
  function PurchaseDate(p: Purchase): int { p.date }
  function ItemSubtotal(i: OrderItem): real { i.subtotal }
}
