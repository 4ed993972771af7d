/** The static handler registries at the end of api/service_layer/handlers.py:
    `COMMAND_HANDLERS` (one handler per command class) and `EVENT_HANDLERS` (a list of
    handlers per event class). The bus looks both up by the message's class. */
module Registry {
  import opened Messages

  /** The handlers `COMMAND_HANDLERS` names. */
  datatype CommandHandlerName =
    | HealthCheckHandler | CreateOrderHandler | CreateProductHandler | CancelOrderHandler
    | GetOrdersForCustomerHandler | GetOrdersHandler | GetProductHandler | GetAllProductsHandler
    | UpdateProductHandler | CreateVariationHandler | DeleteVariationHandler
    | UpdateVariationHandler | CreateUserHandler | GetUserByEmailHandler | DeleteProductHandler
    | AuthenticateUserHandler | GetCatalogHandler | GetOrderHandler | UpdateOrderStatusHandler
    | NotifyOrderSaleHandler

  /** The handlers `EVENT_HANDLERS` names. */
  datatype EventHandlerName = HandleOrderChangeEvent | HandlePushNotification | HandleOrderCreatedEvent

  /** The command class the handler `h` declares for its `cmd` parameter. */
  predicate Accepts(h: CommandHandlerName, c: Command) {
    match h
    case HealthCheckHandler => c.HealthCheck?
    case CreateOrderHandler => c.CreateOrder?
    case CreateProductHandler => c.CreateProduct?
    case CancelOrderHandler => c.CancelOrder?
    case GetOrdersForCustomerHandler => c.GetOrdersForCustomer?
    case GetOrdersHandler => c.GetOrders?
    case GetProductHandler => c.GetProduct?
    case GetAllProductsHandler => c.GetAllProducts?
    case UpdateProductHandler => c.UpdateProduct?
    case CreateVariationHandler => c.CreateVariation?
    case DeleteVariationHandler => c.DeleteVariation?
    case UpdateVariationHandler => c.UpdateVariation?
    case CreateUserHandler => c.CreateUser?
    case GetUserByEmailHandler => c.GetUserByEmail?
    case DeleteProductHandler => c.DeleteProduct?
    case AuthenticateUserHandler => c.AuthenticateUser?
    case GetCatalogHandler => c.GetCatalog?
    case GetOrderHandler => c.GetOrder?
    case UpdateOrderStatusHandler => c.UpdateOrderStatus?
    case NotifyOrderSaleHandler => c.NotifyOrderSale?
  }

  /** `COMMAND_HANDLERS[type(c)]`, or None where the dict has no key for the class:
      `CustomizeProduct` is the one command class without a handler. The literal lists
      `CreateOrder` twice, with the same handler both times, so the later entry changes nothing. */
  function CommandHandler(c: Command): (r: Option<CommandHandlerName>)
    ensures r.None? <==> c.CustomizeProduct?
  {
    match c
    case CustomizeProduct(_, _, _, _) => None
    case GetAllProducts(_) => Some(GetAllProductsHandler)
    case CreateOrder(_, _, _) => Some(CreateOrderHandler)
    case CancelOrder(_, _) => Some(CancelOrderHandler)
    case UpdateOrderStatus(_, _) => Some(UpdateOrderStatusHandler)
    case GetOrder(_) => Some(GetOrderHandler)
    case GetOrders(_, _, _) => Some(GetOrdersHandler)
    case GetOrdersForCustomer(_, _, _) => Some(GetOrdersForCustomerHandler)
    case CreateProduct(_, _, _, _) => Some(CreateProductHandler)
    case GetProduct(_) => Some(GetProductHandler)
    case UpdateProduct(_, _, _, _, _) => Some(UpdateProductHandler)
    case DeleteProduct(_) => Some(DeleteProductHandler)
    case CreateVariation(_, _, _) => Some(CreateVariationHandler)
    case UpdateVariation(_, _, _, _) => Some(UpdateVariationHandler)
    case DeleteVariation(_, _) => Some(DeleteVariationHandler)
    case CreateUser(_, _, _) => Some(CreateUserHandler)
    case GetUserByEmail(_) => Some(GetUserByEmailHandler)
    case HealthCheck => Some(HealthCheckHandler)
    case AuthenticateUser(_, _) => Some(AuthenticateUserHandler)
    case GetCatalog(_) => Some(GetCatalogHandler)
    case NotifyOrderSale => Some(NotifyOrderSaleHandler)
  }

  /** Every registered command is sent to a handler declared for its class, and to the only
      registered handler declared for it. */
  lemma CommandHandlerTyped(c: Command, h: CommandHandlerName)
    requires !c.CustomizeProduct?
    ensures CommandHandler(c) == Some(h) <==> Accepts(h, c)
  {
    match h
    case HealthCheckHandler =>
    case CreateOrderHandler =>
    case CreateProductHandler =>
    case CancelOrderHandler =>
    case GetOrdersForCustomerHandler =>
    case GetOrdersHandler =>
    case GetProductHandler =>
    case GetAllProductsHandler =>
    case UpdateProductHandler =>
    case CreateVariationHandler =>
    case DeleteVariationHandler =>
    case UpdateVariationHandler =>
    case CreateUserHandler =>
    case GetUserByEmailHandler =>
    case DeleteProductHandler =>
    case AuthenticateUserHandler =>
    case GetCatalogHandler =>
    case GetOrderHandler =>
    case UpdateOrderStatusHandler =>
    case NotifyOrderSaleHandler =>
  }

  /** The event class the handler `h` declares for its `event` parameter. */
  predicate Handles(h: EventHandlerName, e: Event) {
    match h
    case HandleOrderChangeEvent => e.OrderStatusChanged?
    case HandlePushNotification => e.OrderStatusChanged?
    case HandleOrderCreatedEvent => e.OrderCreated?
  }

  /** `EVENT_HANDLERS[type(e)]`, or None where the dict has no key for the class. */
  function EventHandlers(e: Event): (r: Option<seq<EventHandlerName>>)
    ensures r.Some? <==> e.OrderStatusChanged? || e.OrderCreated?
  {
    match e
    case OrderStatusChanged(_, _, _, _, _, _, _) => Some([HandleOrderChangeEvent, HandlePushNotification])
    case OrderCreated(_, _, _, _, _, _, _, _) => Some([HandleOrderCreatedEvent])
    case _ => None
  }

  /** Each handler listed for an event is declared for its class, each is listed once, and
      every handler declared for the class is listed. */
  lemma EventHandlersTyped(e: Event, h: EventHandlerName)
    requires EventHandlers(e).Some?
    ensures h in EventHandlers(e).value <==> Handles(h, e)
    ensures forall i, j :: 0 <= i < j < |EventHandlers(e).value| ==>
              EventHandlers(e).value[i] != EventHandlers(e).value[j]
  {
  }

  /** The name of the class of `c`, the key a failed registry lookup reports. */
  function CommandClass(c: Command): string {
    match c
    case CustomizeProduct(_, _, _, _) => "CustomizeProduct"
    case GetAllProducts(_) => "GetAllProducts"
    case CreateOrder(_, _, _) => "CreateOrder"
    case CancelOrder(_, _) => "CancelOrder"
    case UpdateOrderStatus(_, _) => "UpdateOrderStatus"
    case GetOrder(_) => "GetOrder"
    case GetOrders(_, _, _) => "GetOrders"
    case GetOrdersForCustomer(_, _, _) => "GetOrdersForCustomer"
    case CreateProduct(_, _, _, _) => "CreateProduct"
    case GetProduct(_) => "GetProduct"
    case UpdateProduct(_, _, _, _, _) => "UpdateProduct"
    case DeleteProduct(_) => "DeleteProduct"
    case CreateVariation(_, _, _) => "CreateVariation"
    case UpdateVariation(_, _, _, _) => "UpdateVariation"
    case DeleteVariation(_, _) => "DeleteVariation"
    case CreateUser(_, _, _) => "CreateUser"
    case GetUserByEmail(_) => "GetUserByEmail"
    case HealthCheck => "HealthCheck"
    case AuthenticateUser(_, _) => "AuthenticateUser"
    case GetCatalog(_) => "GetCatalog"
    case NotifyOrderSale => "NotifyOrderSale"
  }

  /** The name of the class of `e`. */
  function EventClass(e: Event): string {
    match e
    case PlainEvent => "Event"
    case OrderStatusChanged(_, _, _, _, _, _, _) => "OrderStatusChanged"
    case VariationDeleted(_) => "VariationDeleted"
    case VariationAdded(_, _) => "VariationAdded"
    case OrderCreated(_, _, _, _, _, _, _, _) => "OrderCreated"
  }
}
