/** Value types of the order backend: the status and location enums, order line items,
    domain events, commands, and the exceptions handlers raise. */
module Messages {

  datatype Option<T> = None | Some(value: T)

  /** The outcome of an operation that may raise one of the source's exceptions. */
  datatype Result<T> = Ok(value: T) | Err(error: Failure)

  /** Entity identifiers are uuid strings. */
  type Id = string

  /** A `datetime` value. Timestamps come from the clock and are opaque to the model. */
  type Timestamp = int

  datatype OrderStatus = Waiting | Preparation | Ready | Delivered | Cancelled

  datatype ConsumeLocation = InHouse | TakeAway

  datatype UserRole = Customer | Manager

  /** One line of an order. Prices are integers (cents); the source uses floats. */
  datatype OrderItem = OrderItem(quantity: int, productId: Id, variationId: Option<Id>,
                                 orderId: Id, unitPrice: int)

  /** Domain events. `PlainEvent` is an instance of the base `Event` class itself. */
  datatype Event =
    | PlainEvent
    | OrderStatusChanged(orderId: Id, userId: Id, totalCost: int, status: OrderStatus,
                         consumeLocation: ConsumeLocation, orderItems: seq<OrderItem>,
                         changedAt: Timestamp)
    | VariationDeleted(variationId: Id)
    | VariationAdded(variationId: Id, productId: Id)
    | OrderCreated(id: Id, status: OrderStatus, updatedAt: Option<Timestamp>, userId: Id,
                   totalCost: int, consumeLocation: ConsumeLocation, orderItems: seq<OrderItem>,
                   createdAt: Option<Timestamp>)

  /** An entry of `CreateOrder.order_items`: a dict whose "variation_id" may be absent or None. */
  datatype ItemRequest = ItemRequest(productId: Id, variationId: Option<Id>, quantity: int)

  /** An entry of `CreateProduct.variations`. */
  datatype VariationSpec = VariationSpec(name: string, price: int)

  /** An entry of `UpdateProduct.variations`: the variation's id and the attributes to set. */
  datatype VariationPatch = VariationPatch(id: Id, name: Option<string>, price: Option<int>)

  datatype Command =
    | CustomizeProduct(name: string, price: int, description: string, specs: seq<VariationSpec>)
    | GetAllProducts(page: int)
    | CreateOrder(userId: Id, consumeLocation: ConsumeLocation, items: seq<ItemRequest>)
    | CancelOrder(orderId: Id, userId: Id)
    | UpdateOrderStatus(id: Id, status: OrderStatus)
    | GetOrder(id: Id)
    | GetOrders(page: int, filters: map<string, string>, pageSize: int)
    | GetOrdersForCustomer(page: int, userId: Id, pageSize: int)
    | CreateProduct(name: string, price: int, description: string, specs: seq<VariationSpec>)
    | GetProduct(id: Id)
    | UpdateProduct(id: Id, newName: Option<string>, newPrice: Option<int>,
                    newDescription: Option<string>, patches: Option<seq<VariationPatch>>)
    | DeleteProduct(id: Id)
    | CreateVariation(productId: Id, name: string, price: int)
    | UpdateVariation(variationId: Id, newName: Option<string>, newPrice: Option<int>, productId: Id)
    | DeleteVariation(productId: Id, variationId: Id)
    | CreateUser(email: string, password: string, role: string)
    | GetUserByEmail(email: string)
    | HealthCheck
    | AuthenticateUser(email: string, password: string)
    | GetCatalog(page: int)
    | NotifyOrderSale

  /** What the message bus accepts: a command or (wrongly) an event. */
  datatype Message = Cmd(command: Command) | Evt(event: Event)

  /** The exceptions of api/utils/exceptions.py, and the Python built-in ones the core raises. */
  datatype Failure =
    | Unauthorized
    | OrderNotFound(orderId: Id)
    | ProductNotFound(productId: Id)
    | VariationNotFound(variationId: Id)
    | UserNotFound(userId: Id)
    | InvalidOrderUpdate(orderId: Id, reason: string)
    | InvalidProductUpdate(productId: Id, reason: string)
    | InvalidVariationUpdate(variationId: Id, reason: string)
    | InvalidPassword
    | ValueError(message: string)
    | KeyError(key: string)
    | AttributeError(message: string)
    /** `Exception(f"{message} was not an Event or Command")` raised by the bus. */
    | NotACommand
}
