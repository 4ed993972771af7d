/** The unit tests of tests/unit/test_handler.py and tests/unit/test_user.py, restated as
    verified methods: each builds a `FakeUnitOfWork` holding the rows the test appends to its
    lists, calls the handler the command is registered to, and its postcondition states what the
    model gives on the test's setup. Prices are in cents, so the tests' `10.0` is 1000. */
module Scenarios {
  import opened Messages
  import opened Models
  import opened UnitOfWork
  import opened Registry
  import opened Bus
  import Handlers

  /** test_user_append_event and test_user_pop_events: one event appended is the one event
      popped, and the queue is left empty. */
  method UserPopEvents() returns (queued: seq<Event>, popped: seq<Event>, left: seq<Event>)
    ensures queued == [PlainEvent] && popped == [PlainEvent] && left == []
  {
    var user := new User("u1", "test@test.com", Manager);
    user.AppendEvent(PlainEvent);
    queued := user.events;
    popped := user.PopEvents();
    left := user.events;
  }

  /** The e2e test's refusal of Preparation to Delivered, on an order object: `change_status`
      raises and the order keeps its status and its empty event queue. */
  method PreparationToDelivered() returns (err: Option<Failure>, status: OrderStatus, events: seq<Event>)
    ensures err == Some(ValueError(NotReady)) && status == Preparation && events == []
  {
    var order := new Order("o1", InHouse, 1000, "u1", [], Preparation, None, None);
    err := order.ChangeStatus(Delivered, [], 0);
    status, events := order.status, order.events;
  }

  /** test_create_order_handler: a product and a variation of 10.0 each, two items of them. The
      test checks only that an Order comes back; with the corrected `add` of the order repository
      the model gives an order in status Waiting that costs 40.0 and has queued its OrderCreated
      event. The test passes "HOME_DELIVERY" as consume location, which is not a member of
      ConsumeLocation; the model takes TakeAway, and nothing on the way to the price depends on
      the location. */
  method CreateOrderPriced() returns (r: Result<Order>, status: OrderStatus, total: int, events: seq<Event>)
    ensures r.Ok? && status == Waiting && total == 4000 && |events| == 1 && events[0].OrderCreated?
  {
    var product := new Product("p1", "Test Product", "Test Product", 1000, []);
    var variation := new Variation("v1", "Test Variation", 1000, "p1");
    var uow := new UnitOfWork(Fake, [], [product], [variation], []);
    var cmd := CreateOrder("u2", TakeAway, [ItemRequest("p1", Some("v1"), 2)]);
    assert CommandHandler(cmd) == Some(CreateOrderHandler);
    r := Handlers.CreateOrder(uow, cmd, "o1");
    if r.Err? {
      return;
    }
    status, total, events := r.value.status, r.value.totalCost, r.value.events;
  }

  /** test_create_order_handler_with_invalid_product_id: no products at all. */
  method CreateOrderUnknownProduct() returns (r: Result<Order>)
    ensures r == Err(ProductNotFound("p1"))
  {
    var uow := new UnitOfWork(Fake, [], [], [], []);
    r := Handlers.CreateOrder(uow, CreateOrder("u1", InHouse, [ItemRequest("p1", Some("v1"), 2)]), "o1");
  }

  /** test_update_order_handler_order_not_found: the test expects some exception; the model
      gives OrderNotFound. */
  method UpdateMissingOrder() returns (r: Result<Order>)
    ensures r == Err(OrderNotFound("o1"))
  {
    var uow := new UnitOfWork(Fake, [], [], [], []);
    r := Handlers.UpdateOrderStatus(uow, UpdateOrderStatus("o1", Delivered), 0);
  }

  /** The setup of the cancellation tests: user u1 orders two items of p1 with v1. */
  method CreateTestOrder() returns (uow: UnitOfWork, created: Result<Order>)
    ensures fresh(uow) && uow.Valid() && uow.flavor == Fake
    ensures fresh(uow.users) && fresh(uow.products) && fresh(uow.variations) && fresh(uow.orders)
    ensures created.Ok? && fresh(created.value) && uow.orderStore.items == [created.value]
    ensures created.value.id == "o1" && created.value.userId == "u1" && created.value.status == Waiting
  {
    var product := new Product("p1", "Test Product", "Test Product", 1000, []);
    var variation := new Variation("v1", "Test Variation", 1000, "p1");
    uow := new UnitOfWork(Fake, [], [product], [variation], []);
    created := Handlers.CreateOrder(uow, CreateOrder("u1", InHouse, [ItemRequest("p1", Some("v1"), 2)]), "o1");
  }

  /** test_mark_order_as_cancelled_handler and test_user_can_only_cancel_their_order: the order
      just created is cancelled by its own user, and refused to anyone else. */
  method CancelCreatedOrder(asker: Id) returns (created: Result<Order>, r: Result<(bool, string)>)
    ensures created.Ok?
    ensures asker == "u1" ==> r == Ok((true, "Order cancelled successfully"))
    ensures asker != "u1" ==> r == Err(Unauthorized)
  {
    var uow;
    uow, created := CreateTestOrder();
    assert Handlers.OrderView(uow.orderStore.items, created.value.id) == Some(("u1", Waiting));
    r := Handlers.CancelOrder(uow, CancelOrder(created.value.id, asker), 0);
  }

  /** test_delete_product_handler: deleting returns the product that was deleted. */
  method DeleteKnownProduct() returns (r: Result<Product>)
    ensures r.Ok? && r.value.id == "p1"
  {
    var product := new Product("p1", "Test Product", "Test Product", 1000, []);
    var uow := new UnitOfWork(Fake, [], [product], [], []);
    r := Handlers.DeleteProduct(uow, DeleteProduct("p1"));
  }

  /** test_delete_non_existent_product_handler. */
  method DeleteUnknownProduct() returns (r: Result<Product>)
    ensures r == Err(ProductNotFound("p1"))
  {
    var uow := new UnitOfWork(Fake, [], [], [], []);
    r := Handlers.DeleteProduct(uow, DeleteProduct("p1"));
  }

  /** test_update_product_handler: the returned product carries the new description. */
  method UpdateKnownProduct() returns (r: Result<Product>, description: string, price: int)
    ensures r.Ok? && description == "Updated Product" && price == 2000
  {
    var product := new Product("p1", "Test Product", "Test Product", 1000, []);
    var uow := new UnitOfWork(Fake, [], [product], [], []);
    r := Handlers.UpdateProduct(uow, UpdateProduct("p1", Some("Updated Product"), Some(2000),
                                                   Some("Updated Product"), None));
    if r.Err? {
      return;
    }
    description, price := r.value.description, r.value.price;
  }

  /** test_update_non_existent_product_handler. */
  method UpdateUnknownProduct() returns (r: Result<Product>)
    ensures r == Err(ProductNotFound("p1"))
  {
    var uow := new UnitOfWork(Fake, [], [], [], []);
    r := Handlers.UpdateProduct(uow, UpdateProduct("p1", Some("Updated Product"), Some(2000),
                                                   Some("Updated Product"), None));
  }

  // ---------------------------------------------------------------- the bus

  /** An OrderStatusChanged event, as `change_status` records it. */
  const Changed := OrderStatusChanged("o1", "u1", 4000, Ready, InHouse, [], 0)

  /** A command whose handler returns 7 and leaves one OrderStatusChanged behind; the first
      event handler raises, the second returns and leaves nothing: both run, in registry order,
      and `handle` still returns 7. */
  lemma FailingEventHandlerIsolated()
    ensures var replies := (k: nat) => if k == 0 then Raised(ValueError("boom")) else Returned((), []);
            Handled(Cmd(UpdateOrderStatus("o1", Ready)), Returned(7, [Changed]), replies, 1) ==
            (Completed(7), Progress([], 2, [Call(HandleOrderChangeEvent, Changed), Call(HandlePushNotification, Changed)]))
  {
    var replies := (k: nat) => if k == 0 then Raised(ValueError("boom")) else Returned((), []);
    var s := Progress([Changed], 0, []);
    var hs := [HandleOrderChangeEvent, HandlePushNotification];
    assert EventHandlers(Changed) == Some(hs);
    var rest := Progress([], 0, []);
    assert s.(queue := s.queue[1..]) == rest;
    assert Dispatch(rest, Changed, hs[..1], replies) == Progress([], 1, [Call(HandleOrderChangeEvent, Changed)]);
    assert Dispatch(rest, Changed, hs, replies) ==
           Progress([], 2, [Call(HandleOrderChangeEvent, Changed), Call(HandlePushNotification, Changed)]);
  }

  /** A command handler that leaves a VariationAdded behind: the event class has no registry
      entry, so `handle` raises the KeyError of the lookup instead of returning. */
  lemma UnregisteredEventFailsHandle(replies: nat -> Reply<()>)
    ensures Handled(Cmd(DeleteProduct("p1")), Returned(0, [VariationAdded("v1", "p1")]), replies, 1).0 ==
            Failed(KeyError("VariationAdded"))
  {
    UnregisteredEventAborts(Progress([VariationAdded("v1", "p1")], 0, []), 1, replies);
  }
}
