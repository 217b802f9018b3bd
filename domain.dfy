/** The records of the marketplace (`src/types/index.ts`). Quantities in tons and
    money are exact reals; timestamps are milliseconds since the epoch. Optional
    properties (`hectares?`, `certifier?`, ...) are `Option` values. */
module Domain {
  import opened Wrappers

  datatype ProjectStatus = Active | Inactive
  datatype BatchStatus = Available | Reserved | Sold
  datatype OrderStatus = Pending | Paid | Cancelled

  datatype Project = Project(
    id: string,
    name: string,
    location: string,
    hectares: Option<real>,
    description: Option<string>,
    certifier: Option<string>,
    createdAt: Option<string>)

  datatype Batch = Batch(
    id: string,
    projectId: string,
    tonsCO2: real,
    pricePerTon: real,
    status: BatchStatus,
    createdAt: Option<string>)

  datatype Order = Order(
    id: string,
    projectId: string,
    batchId: string,
    buyerName: string,
    qtyTons: real,
    total: real,
    status: OrderStatus,
    createdAt: Option<string>,
    processedAt: Option<string>)

  /** The composed detail view of one project. */
  datatype AggregateProject = AggregateProject(project: Project, batches: seq<Batch>, lastOrders: seq<Order>)

  /** One reservation line of the cart; `expiresAt` is in milliseconds. */
  datatype CartItem = CartItem(
    batchId: string,
    projectId: string,
    projectName: string,
    qtyTons: real,
    pricePerTon: real,
    subtotal: real,
    expiresAt: int)

  /** One line of an order-creation request (`CreateOrderPayload` of the orders API). */
  datatype OrderItemPayload = OrderItemPayload(batchId: string, projectId: string, qtyTons: real, pricePerTon: real)

  /** The body of the order-creation request: one buyer, one or more lines. */
  datatype CreateOrderPayload = CreateOrderPayload(buyerName: string, items: seq<OrderItemPayload>)

  /** The list filters of the projects page; `None` is an absent property. */
  datatype ProjectFilters = ProjectFilters(
    search: Option<string>,
    location: Option<string>,
    certifier: Option<string>,
    minPrice: Option<real>,
    maxPrice: Option<real>,
    status: Option<BatchStatus>)

  /** JavaScript truthiness of an optional string: present and not empty. */
  predicate Truthy(s: Option<string>) {
    s.Some? && s.value != ""
  }
}
