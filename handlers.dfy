/** The command handlers of api/service_layer/handlers.py that carry decisions: order creation
    and pricing, cancellation, status updates, variation creation and renaming, product updates
    and deletions. Each runs inside the unit of work's scope: `Enter` first, then `Exit(true)` on
    every path that raises and `Exit(false)` on every path that returns. A handler that raises
    returns `Err` with the exception it raises. */
module Handlers {
  import opened Messages
  import opened Seqs
  import opened Models
  import opened Repository
  import opened UnitOfWork

  // ---------------------------------------------------------------- order pricing

  /** The `unit_price` of one requested item: the product's price, plus the variation's price
      when a variation id is given; or the failure raised when either is not found. */
  function UnitPrice(item: ItemRequest, ps: seq<Product>, vs: seq<Variation>): Result<int>
    reads ps, vs
  {
    match Lookup(ps, ProductKey, item.productId)
    case None => Err(ProductNotFound(item.productId))
    case Some(p) =>
      if item.variationId.None? then Ok(p.price)
      else match Lookup(vs, VariationKey, item.variationId.value)
        case None => Err(VariationNotFound(item.variationId.value))
        case Some(v) => Ok(p.price + v.price)
  }

  /** Whether an item can be priced at all. */
  predicate Priceable(item: ItemRequest, ps: seq<Product>, vs: seq<Variation>) {
    Lookup(ps, ProductKey, item.productId).Some? &&
    (item.variationId.Some? ==> Lookup(vs, VariationKey, item.variationId.value).Some?)
  }

  lemma UnitPriceOk(item: ItemRequest, ps: seq<Product>, vs: seq<Variation>)
    ensures UnitPrice(item, ps, vs).Ok? <==> Priceable(item, ps, vs)
    ensures !Lookup(ps, ProductKey, item.productId).Some? ==>
              UnitPrice(item, ps, vs) == Err(ProductNotFound(item.productId))
    ensures Lookup(ps, ProductKey, item.productId).Some? && !Priceable(item, ps, vs) ==>
              UnitPrice(item, ps, vs) == Err(VariationNotFound(item.variationId.value))
  {
  }

  /** The order line `create_order_handler` builds for a priced item. */
  function Line(item: ItemRequest, orderId: Id, unitPrice: int): OrderItem {
    OrderItem(item.quantity, item.productId, item.variationId, orderId, unitPrice)
  }

  /** The order lines for `items`, in order, or the failure of the first item that cannot be
      priced. */
  function PriceItems(items: seq<ItemRequest>, ps: seq<Product>, vs: seq<Variation>, orderId: Id)
    : Result<seq<OrderItem>>
    reads ps, vs
  {
    if items == [] then Ok([])
    else
      var init := items[..|items| - 1];
      var last := items[|items| - 1];
      match PriceItems(init, ps, vs, orderId)
      case Err(e) => Err(e)
      case Ok(lines) =>
        match UnitPrice(last, ps, vs)
        case Err(e) => Err(e)
        case Ok(u) => Ok(lines + [Line(last, orderId, u)])
  }

  /** Pricing succeeds exactly when every item can be priced, and then yields one line per item,
      in order, each carrying the order's id and that item's unit price. */
  lemma {:induction false} PriceItemsLines(items: seq<ItemRequest>, ps: seq<Product>, vs: seq<Variation>, orderId: Id)
    ensures PriceItems(items, ps, vs, orderId).Ok? <==>
              forall i :: 0 <= i < |items| ==> UnitPrice(items[i], ps, vs).Ok?
    ensures PriceItems(items, ps, vs, orderId).Ok? ==>
              var lines := PriceItems(items, ps, vs, orderId).value;
              |lines| == |items| &&
              forall i :: 0 <= i < |items| ==> lines[i] == Line(items[i], orderId, UnitPrice(items[i], ps, vs).value)
  {
    if items != [] {
      var init := items[..|items| - 1];
      PriceItemsLines(init, ps, vs, orderId);
      assert forall i :: 0 <= i < |init| ==> init[i] == items[i];
    }
  }

  /** Pricing fails with the failure of the first item that cannot be priced. */
  lemma {:induction false} PriceItemsFirstFailure(items: seq<ItemRequest>, ps: seq<Product>, vs: seq<Variation>, orderId: Id)
    requires PriceItems(items, ps, vs, orderId).Err?
    ensures exists i :: 0 <= i < |items| && UnitPrice(items[i], ps, vs) == Err(PriceItems(items, ps, vs, orderId).error) &&
              forall j :: 0 <= j < i ==> UnitPrice(items[j], ps, vs).Ok?
  {
    var init := items[..|items| - 1];
    assert forall i :: 0 <= i < |init| ==> init[i] == items[i];
    if PriceItems(init, ps, vs, orderId).Err? {
      PriceItemsFirstFailure(init, ps, vs, orderId);
    } else {
      PriceItemsLines(init, ps, vs, orderId);
      assert UnitPrice(items[|items| - 1], ps, vs) == Err(PriceItems(items, ps, vs, orderId).error);
    }
  }

  /** Once a prefix of the items fails, the whole list fails the same way. */
  lemma {:induction false} PriceItemsFailFast(items: seq<ItemRequest>, k: nat, ps: seq<Product>,
                                             vs: seq<Variation>, orderId: Id)
    requires k <= |items| && PriceItems(items[..k], ps, vs, orderId).Err?
    ensures PriceItems(items, ps, vs, orderId) == PriceItems(items[..k], ps, vs, orderId)
    decreases |items| - k
  {
    if k < |items| {
      var next := items[..k + 1];
      assert next[..|next| - 1] == items[..k];
      PriceItemsFailFast(items, k + 1, ps, vs, orderId);
    } else {
      assert items[..k] == items;
    }
  }

  /** `total_cost`: the sum of quantity times unit price over the lines. */
  function ItemsCost(lines: seq<OrderItem>): int {
    if lines == [] then 0
    else ItemsCost(lines[..|lines| - 1]) + lines[|lines| - 1].quantity * lines[|lines| - 1].unitPrice
  }

  /** The cost of two lists of lines together is the sum of their costs. */
  lemma {:induction false} ItemsCostConcat(a: seq<OrderItem>, b: seq<OrderItem>)
    ensures ItemsCost(a + b) == ItemsCost(a) + ItemsCost(b)
    decreases |b|
  {
    if b == [] {
      assert a + b == a;
    } else {
      assert (a + b)[..|a + b| - 1] == a + b[..|b| - 1];
      ItemsCostConcat(a, b[..|b| - 1]);
    }
  }

  lemma UnitPriceFound(item: ItemRequest, ps: seq<Product>, vs: seq<Variation>, p: Product,
                       v: Option<Variation>)
    requires Lookup(ps, ProductKey, item.productId) == Some(p)
    requires item.variationId.None? ==> v.None?
    requires item.variationId.Some? ==> Lookup(vs, VariationKey, item.variationId.value) == v && v.Some?
    ensures UnitPrice(item, ps, vs) == Ok(p.price + if v.Some? then v.value.price else 0)
  {
  }

  lemma ItemsCostSnoc(lines: seq<OrderItem>, line: OrderItem)
    ensures ItemsCost(lines + [line]) == ItemsCost(lines) + line.quantity * line.unitPrice
  {
    assert (lines + [line])[..|lines|] == lines;
  }

  lemma PriceItemsSnoc(items: seq<ItemRequest>, i: nat, ps: seq<Product>, vs: seq<Variation>, orderId: Id,
                       lines: seq<OrderItem>, u: int)
    requires i < |items| && PriceItems(items[..i], ps, vs, orderId) == Ok(lines)
    requires UnitPrice(items[i], ps, vs) == Ok(u)
    ensures PriceItems(items[..i + 1], ps, vs, orderId) == Ok(lines + [Line(items[i], orderId, u)])
  {
    var prefix := items[..i + 1];
    assert prefix[..i] == items[..i] && prefix[i] == items[i];
  }

  lemma PriceItemsStop(items: seq<ItemRequest>, i: nat, ps: seq<Product>, vs: seq<Variation>, orderId: Id,
                       lines: seq<OrderItem>)
    requires i < |items| && PriceItems(items[..i], ps, vs, orderId) == Ok(lines)
    requires UnitPrice(items[i], ps, vs).Err?
    ensures PriceItems(items, ps, vs, orderId) == Err(UnitPrice(items[i], ps, vs).error)
  {
    var prefix := items[..i + 1];
    assert prefix[..i] == items[..i] && prefix[i] == items[i];
    PriceItemsFailFast(items, i + 1, ps, vs, orderId);
  }

  /** One pass of the item loop of `create_order_handler`: the product, then the variation
      when one is given, are fetched (and so become seen) and the unit price is formed. */
  method PriceItem(uow: UnitOfWork, item: ItemRequest) returns (r: Result<int>)
    requires uow.Valid()
    modifies uow.products, uow.variations
    ensures r == UnitPrice(item, uow.productStore.items, uow.variationStore.items)
  {
    var product := uow.products.Get(item.productId);
    if product.None? {
      return Err(ProductNotFound(item.productId));
    }
    var unitPrice := product.value.price;
    ghost var variationFound: Option<Variation> := None;
    if item.variationId.Some? {
      var variation := uow.variations.Get(item.variationId.value);
      if variation.None? {
        return Err(VariationNotFound(item.variationId.value));
      }
      unitPrice := unitPrice + variation.value.price;
      variationFound := variation;
    }
    UnitPriceFound(item, uow.productStore.items, uow.variationStore.items, product.value, variationFound);
    return Ok(unitPrice);
  }

  /** The item loop of `create_order_handler`: the lines and their total, or the failure of the
      first item that cannot be priced. */
  method PriceOrder(uow: UnitOfWork, items: seq<ItemRequest>, orderId: Id)
    returns (r: Result<seq<OrderItem>>, total: int)
    requires uow.Valid()
    modifies uow.products, uow.variations
    ensures r == PriceItems(items, uow.productStore.items, uow.variationStore.items, orderId)
    ensures r.Ok? ==> total == ItemsCost(r.value)
  {
    ghost var ps, vs := uow.productStore.items, uow.variationStore.items;
    var lines: seq<OrderItem> := [];
    total := 0;
    for i := 0 to |items|
      invariant PriceItems(items[..i], ps, vs, orderId) == Ok(lines)
      invariant total == ItemsCost(lines)
    {
      var item := items[i];
      var unitPrice := PriceItem(uow, item);
      if unitPrice.Err? {
        PriceItemsStop(items, i, ps, vs, orderId, lines);
        return Err(unitPrice.error), total;
      }
      var line := Line(item, orderId, unitPrice.value);
      PriceItemsSnoc(items, i, ps, vs, orderId, lines, unitPrice.value);
      ItemsCostSnoc(lines, line);
      total := total + item.quantity * unitPrice.value;
      lines := lines + [line];
    }
    assert items[..|items|] == items;
    return Ok(lines), total;
  }

  /** The tail of `create_order_handler`: a new Waiting order is added, which queues its
      OrderCreated event, and the unit of work commits. */
  method PlaceOrder(uow: UnitOfWork, id: Id, location: ConsumeLocation, userId: Id,
                    lines: seq<OrderItem>, total: int) returns (order: Order)
    requires uow.Valid()
    modifies uow.orders, uow.orderStore, uow`committed, uow`sessionCommits, uow`commits
    ensures uow.Valid()
    ensures fresh(order) && order.id == id && order.userId == userId && order.consumeLocation == location
    ensures order.status == Waiting && order.orderItems == lines && order.totalCost == total
    ensures order.events == [CreatedEvent(order)]
    ensures uow.orderStore.items == old(uow.orderStore.items) + [order] && uow.commits == old(uow.commits) + 1
    ensures uow.orders.seen == Remember(old(uow.orders.seen), id, order)
    ensures uow.userStore.items == old(uow.userStore.items) && uow.productStore.items == old(uow.productStore.items)
    ensures uow.variationStore.items == old(uow.variationStore.items)
  {
    order := new Order(id, location, total, userId, lines, Waiting, None, None);
    uow.orders.Add(order);
    uow.Commit();
  }

  /** `create_order_handler`. `orderId` is the fresh uuid. Items are priced in order; the first
      one whose product, or whose given variation, is not found raises, and nothing is added or
      committed. Otherwise the new Waiting order, carrying the priced lines and their total, is
      added (queuing its OrderCreated event) and committed. */
  method CreateOrder(uow: UnitOfWork, cmd: Command, orderId: Id) returns (r: Result<Order>)
    requires cmd.CreateOrder? && uow.Valid()
    modifies uow, uow.users`seen, uow.products, uow.variations, uow.orders, uow.orderStore
    ensures uow.Valid()
    ensures uow.userStore.items == old(uow.userStore.items) && uow.productStore.items == old(uow.productStore.items)
    ensures uow.variationStore.items == old(uow.variationStore.items)
    ensures uow.users.seen == Entered(uow.flavor, old(uow.users.seen))
    ensures old(PriceItems(cmd.items, uow.productStore.items, uow.variationStore.items, orderId)).Err? ==>
              uow.orders.seen == Entered(uow.flavor, old(uow.orders.seen))
    ensures r.Ok? ==> uow.orders.seen == Remember(Entered(uow.flavor, old(uow.orders.seen)), orderId, r.value)
    ensures var priced := old(PriceItems(cmd.items, uow.productStore.items, uow.variationStore.items, orderId));
      priced.Err? ==>
        r == Err(priced.error) && uow.orderStore.items == old(uow.orderStore.items) && uow.commits == old(uow.commits)
    ensures var priced := old(PriceItems(cmd.items, uow.productStore.items, uow.variationStore.items, orderId));
      priced.Ok? ==>
        r.Ok? && fresh(r.value) && r.value.id == orderId && r.value.userId == cmd.userId &&
        r.value.consumeLocation == cmd.consumeLocation && r.value.status == Waiting &&
        r.value.orderItems == priced.value && r.value.totalCost == ItemsCost(priced.value) &&
        r.value.events == [CreatedEvent(r.value)] &&
        uow.orderStore.items == old(uow.orderStore.items) + [r.value] && uow.commits == old(uow.commits) + 1
  {
    ghost var ps, vs := uow.productStore.items, uow.variationStore.items;
    ghost var expected := PriceItems(cmd.items, ps, vs, orderId);
    uow.Enter();
    assert PriceItems(cmd.items, ps, vs, orderId) == expected;
    var priced, total := PriceOrder(uow, cmd.items, orderId);
    assert priced == expected;
    if priced.Err? {
      uow.Exit(true);
      return Err(priced.error);
    }
    var order := PlaceOrder(uow, orderId, cmd.consumeLocation, cmd.userId, priced.value, total);
    uow.Exit(false);
    return Ok(order);
  }

  // ---------------------------------------------------------------- shared

  /** The stored entity with id `k`, as a set of at most one element: what a handler that looks
      `k` up may change. */
  ghost function Found<T>(s: seq<T>, key: T -> Id, k: Id): set<T> {
    match Lookup(s, key, k)
    case None => {}
    case Some(x) => {x}
  }

  /** The variations listed by the product with id `k` in `s`, if there is one. */
  ghost function FoundVariations(s: seq<Product>, k: Id): set<Variation>
    reads (set p | p in s)`variations
  {
    match Lookup(s, ProductKey, k)
    case None => {}
    case Some(p) => set w | w in p.variations
  }

  // ---------------------------------------------------------------- cancellation

  /** The answers of `cancel_order_handler` that do not raise. */
  const CancelledReply: (bool, string) := (true, "Order cancelled successfully")
  const AlreadyCancelledReply: (bool, string) := (false, "Order already cancelled")
  const AlreadyDeliveredReply: (bool, string) := (false, "Order already delivered")

  /** The owner and status of the stored order with id `k`, if there is one. */
  function OrderView(os: seq<Order>, k: Id): Option<(Id, OrderStatus)>
    reads os
  {
    match Lookup(os, OrderKey, k)
    case None => None
    case Some(o) => Some((o.userId, o.status))
  }

  /** What `cancel_order_handler` answers for an order whose owner and status are `found`
      (None when there is no such order), asked by `userId`. */
  function CancelOutcome(found: Option<(Id, OrderStatus)>, orderId: Id, userId: Id): (r: Result<(bool, string)>)
    ensures r == Ok(CancelledReply) <==>
              found.Some? && found.value.0 == userId && (found.value.1 == Waiting || found.value.1 == Preparation)
    ensures found.None? <==> r == Err(OrderNotFound(orderId))
    ensures r.Ok? ==> found.Some? && found.value.0 == userId
  {
    if found.None? then Err(OrderNotFound(orderId))
    else
      var (owner, status) := found.value;
      if owner != userId then Err(Unauthorized)
      else if status == Cancelled then Ok(AlreadyCancelledReply)
      else if status == Delivered then Ok(AlreadyDeliveredReply)
      else match TransitionError(status, Cancelled)
        case Some(e) => Err(e)
        case None => Ok(CancelledReply)
  }

  /** The refusals of `cancel_order_handler`: another user's order is Unauthorized; an order
      already Cancelled or Delivered is answered (False, reason) without raising; a Ready one
      makes `change_status` raise its ValueError, which escapes unwrapped. */
  lemma CancelRefusals(found: Option<(Id, OrderStatus)>, orderId: Id, userId: Id)
    ensures found.Some? && found.value.0 != userId ==> CancelOutcome(found, orderId, userId) == Err(Unauthorized)
    ensures found.Some? && found.value.0 == userId && found.value.1 == Ready ==>
              CancelOutcome(found, orderId, userId) ==
              Err(ValueError(CannotCancel))
    ensures found.Some? && found.value.0 == userId && found.value.1 == Cancelled ==>
              CancelOutcome(found, orderId, userId) == Ok(AlreadyCancelledReply)
    ensures found.Some? && found.value.0 == userId && found.value.1 == Delivered ==>
              CancelOutcome(found, orderId, userId) == Ok(AlreadyDeliveredReply)
  {
  }

  /** `cancel_order_handler`; `now` is the clock reading the status change records. Only a
      cancellation that succeeds changes the order, queuing one OrderStatusChanged, and commits. */
  method CancelOrder(uow: UnitOfWork, cmd: Command, now: Timestamp) returns (r: Result<(bool, string)>)
    requires cmd.CancelOrder? && uow.Valid()
    modifies uow, uow.users`seen, uow.products`seen, uow.variations`seen, uow.orders`seen,
             Found(uow.orderStore.items, OrderKey, cmd.orderId)`status,
             Found(uow.orderStore.items, OrderKey, cmd.orderId)`events
    ensures uow.Valid() && uow.orderStore.items == old(uow.orderStore.items)
    ensures uow.userStore.items == old(uow.userStore.items) && uow.productStore.items == old(uow.productStore.items)
    ensures uow.variationStore.items == old(uow.variationStore.items)
    ensures uow.users.seen == Entered(uow.flavor, old(uow.users.seen))
    ensures uow.products.seen == EnteredSet(uow.flavor, old(uow.products.seen))
    ensures uow.variations.seen == EnteredSet(uow.flavor, old(uow.variations.seen))
    ensures uow.orders.seen == match old(Lookup(uow.orderStore.items, OrderKey, cmd.orderId))
              case None => Entered(uow.flavor, old(uow.orders.seen))
              case Some(o) => Remember(Entered(uow.flavor, old(uow.orders.seen)), o.id, o)
    ensures r == CancelOutcome(old(OrderView(uow.orderStore.items, cmd.orderId)), cmd.orderId, cmd.userId)
    ensures var found := old(Lookup(uow.orderStore.items, OrderKey, cmd.orderId));
      r == Ok(CancelledReply) ==>
        found.Some? && found.value.status == Cancelled &&
        found.value.events == old(found.value.events) + [found.value.StatusChangedEvent(Cancelled, found.value.orderItems, now)] &&
        uow.commits == old(uow.commits) + 1
    ensures var found := old(Lookup(uow.orderStore.items, OrderKey, cmd.orderId));
      r != Ok(CancelledReply) ==>
        uow.commits == old(uow.commits) &&
        (found.Some? ==> found.value.status == old(found.value.status) && found.value.events == old(found.value.events))
  {
    ghost var view := OrderView(uow.orderStore.items, cmd.orderId);
    uow.Enter();
    var order := uow.orders.Get(cmd.orderId);
    if order.None? {
      assert view == None;
      uow.Exit(true);
      return Err(OrderNotFound(cmd.orderId));
    }
    assert view == Some((order.value.userId, order.value.status));
    r := CancelFound(uow, order.value, cmd.userId, now);
  }

  /** The part of `cancel_order_handler` after the order `o` is found. */
  method CancelFound(uow: UnitOfWork, o: Order, userId: Id, now: Timestamp) returns (r: Result<(bool, string)>)
    requires uow.Valid()
    modifies uow`committed, uow`sessionCommits, uow`commits, uow`sessionOpen, uow`sessionRollbacks, o`status, o`events
    ensures uow.Valid()
    ensures r == CancelOutcome(Some((o.userId, old(o.status))), o.id, userId)
    ensures r == Ok(CancelledReply) ==>
      o.status == Cancelled && o.events == old(o.events) + [o.StatusChangedEvent(Cancelled, o.orderItems, now)] &&
      uow.commits == old(uow.commits) + 1
    ensures r != Ok(CancelledReply) ==>
      uow.commits == old(uow.commits) && o.status == old(o.status) && o.events == old(o.events)
  {
    if o.userId != userId {
      uow.Exit(true);
      return Err(Unauthorized);
    }
    if o.status == Cancelled {
      uow.Exit(false);
      return Ok(AlreadyCancelledReply);
    }
    if o.status == Delivered {
      uow.Exit(false);
      return Ok(AlreadyDeliveredReply);
    }
    var err := o.ChangeStatus(Cancelled, o.orderItems, now);
    if err.Some? {
      uow.Exit(true);
      return Err(err.value);
    }
    uow.Commit();
    uow.Exit(false);
    return Ok(CancelledReply);
  }

  // ---------------------------------------------------------------- status updates

  /** The message of the AttributeError raised by reading `.name` of a product or variation that
      was not found. */
  const NoName := "'NoneType' object has no attribute 'name'"

  /** Whether the line's product and its variation are both found. The loop of
      `update_order_status_handler` reads the name of each, so a missing product, a missing
      variation or an absent variation id raises AttributeError. */
  predicate Describable(item: OrderItem, ps: seq<Product>, vs: seq<Variation>) {
    Lookup(ps, ProductKey, item.productId).Some? &&
    item.variationId.Some? && Lookup(vs, VariationKey, item.variationId.value).Some?
  }

  predicate AllDescribable(items: seq<OrderItem>, ps: seq<Product>, vs: seq<Variation>) {
    forall i :: 0 <= i < |items| ==> Describable(items[i], ps, vs)
  }

  /** The item loop of `update_order_status_handler`: fetches each line's product and variation
      (so they become seen), stopping at the first line that cannot be described. */
  method DescribeItems(uow: UnitOfWork, items: seq<OrderItem>) returns (ok: bool)
    requires uow.Valid()
    modifies uow.products`seen, uow.variations`seen
    ensures ok == AllDescribable(items, uow.productStore.items, uow.variationStore.items)
  {
    for i := 0 to |items|
      invariant AllDescribable(items[..i], uow.productStore.items, uow.variationStore.items)
    {
      var product := uow.products.Get(items[i].productId);
      var variation: Option<Variation> := None;
      if items[i].variationId.Some? {
        variation := uow.variations.Get(items[i].variationId.value);
      }
      if product.None? || variation.None? {
        return false;
      }
      assert items[..i + 1] == items[..i] + [items[i]];
    }
    assert items[..|items|] == items;
    return true;
  }

  /** What `update_order_status_handler` does with a found order in status `from` whose lines are
      `describable` or not: the AttributeError of the item loop comes first, then a refused move
      is reported as InvalidOrderUpdate carrying `change_status`'s message. */
  function StatusUpdate(o: Order, from: OrderStatus, describable: bool, to: OrderStatus): (r: Result<Order>)
    ensures r.Ok? <==> describable && Allowed(from, to)
    ensures r.Ok? ==> r.value == o
    ensures !describable ==> r == Err(AttributeError(NoName))
    ensures describable && !Allowed(from, to) ==>
              r == Err(InvalidOrderUpdate(o.id, TransitionError(from, to).value.message))
  {
    TransitionAllowed(from, to);
    if !describable then Err(AttributeError(NoName))
    else match TransitionError(from, to)
      case Some(e) => Err(InvalidOrderUpdate(o.id, e.message))
      case None => Ok(o)
  }

  /** `update_order_status_handler`; `now` is the clock reading the status change records. A
      missing order raises OrderNotFound; otherwise the order changes, queuing one
      OrderStatusChanged, and the unit of work commits exactly when `StatusUpdate` succeeds. */
  method UpdateOrderStatus(uow: UnitOfWork, cmd: Command, now: Timestamp) returns (r: Result<Order>)
    requires cmd.UpdateOrderStatus? && uow.Valid()
    modifies uow, uow.users`seen, uow.products`seen, uow.variations`seen, uow.orders`seen,
             Found(uow.orderStore.items, OrderKey, cmd.id)`status, Found(uow.orderStore.items, OrderKey, cmd.id)`events
    ensures uow.Valid() && uow.orderStore.items == old(uow.orderStore.items)
    ensures uow.userStore.items == old(uow.userStore.items) && uow.productStore.items == old(uow.productStore.items)
    ensures uow.variationStore.items == old(uow.variationStore.items)
    ensures uow.users.seen == Entered(uow.flavor, old(uow.users.seen))
    ensures uow.orders.seen == match old(Lookup(uow.orderStore.items, OrderKey, cmd.id))
              case None => Entered(uow.flavor, old(uow.orders.seen))
              case Some(o) => Remember(Entered(uow.flavor, old(uow.orders.seen)), o.id, o)
    ensures old(Lookup(uow.orderStore.items, OrderKey, cmd.id)).None? ==>
      r == Err(OrderNotFound(cmd.id)) && uow.commits == old(uow.commits)
    ensures var found := old(Lookup(uow.orderStore.items, OrderKey, cmd.id));
      found.Some? ==>
        r == StatusUpdate(found.value, old(found.value.status),
                          AllDescribable(found.value.orderItems, uow.productStore.items, uow.variationStore.items),
                          cmd.status)
    ensures var found := old(Lookup(uow.orderStore.items, OrderKey, cmd.id));
      found.Some? && r.Ok? ==>
        found.value.status == cmd.status && uow.commits == old(uow.commits) + 1 &&
        found.value.events == old(found.value.events) + [found.value.StatusChangedEvent(cmd.status, found.value.orderItems, now)]
    ensures var found := old(Lookup(uow.orderStore.items, OrderKey, cmd.id));
      found.Some? && r.Err? ==>
        found.value.status == old(found.value.status) && found.value.events == old(found.value.events) &&
        uow.commits == old(uow.commits)
  {
    ghost var found := Lookup(uow.orderStore.items, OrderKey, cmd.id);
    uow.Enter();
    var order := uow.orders.Get(cmd.id);
    assert order == found;
    if order.None? {
      uow.Exit(true);
      return Err(OrderNotFound(cmd.id));
    }
    r := UpdateFound(uow, order.value, cmd.status, now);
  }

  /** The part of `update_order_status_handler` after the order `o` is found. */
  method UpdateFound(uow: UnitOfWork, o: Order, to: OrderStatus, now: Timestamp) returns (r: Result<Order>)
    requires uow.Valid()
    modifies uow.products`seen, uow.variations`seen, uow`committed, uow`sessionCommits, uow`commits,
             uow`sessionOpen, uow`sessionRollbacks, o`status, o`events
    ensures uow.Valid()
    ensures r == StatusUpdate(o, old(o.status), AllDescribable(o.orderItems, uow.productStore.items, uow.variationStore.items), to)
    ensures r.Ok? ==>
      o.status == to && uow.commits == old(uow.commits) + 1 &&
      o.events == old(o.events) + [o.StatusChangedEvent(to, o.orderItems, now)]
    ensures r.Err? ==> o.status == old(o.status) && o.events == old(o.events) && uow.commits == old(uow.commits)
  {
    var describable := DescribeItems(uow, o.orderItems);
    if !describable {
      uow.Exit(true);
      return Err(AttributeError(NoName));
    }
    var err := o.ChangeStatus(to, o.orderItems, now);
    if err.Some? {
      uow.Exit(true);
      return Err(InvalidOrderUpdate(o.id, err.value.message));
    }
    uow.Commit();
    uow.Exit(false);
    return Ok(o);
  }

  // ---------------------------------------------------------------- variations

  /** Whether `v` is named `name` and, when `except` is given, has another id. */
  predicate Clashes(v: Variation, name: string, except: Option<Id>)
    reads v
  {
    v.name == name && (except.None? || v.id != except.value)
  }

  /** The first variation of `vs` that clashes with `name`, if any. */
  function FirstClash(vs: seq<Variation>, name: string, except: Option<Id>): (r: Option<Variation>)
    reads vs
    ensures r.Some? ==> r.value in vs && Clashes(r.value, name, except)
    ensures r.None? <==> forall i :: 0 <= i < |vs| ==> !Clashes(vs[i], name, except)
  {
    if vs == [] then None
    else if Clashes(vs[0], name, except) then Some(vs[0])
    else FirstClash(vs[1..], name, except)
  }

  /** A scan that stops at index `i` finds exactly what `FirstClash` finds. */
  lemma {:induction false} FirstClashAt(vs: seq<Variation>, name: string, except: Option<Id>, i: nat)
    requires i < |vs| && Clashes(vs[i], name, except)
    requires forall j :: 0 <= j < i ==> !Clashes(vs[j], name, except)
    ensures FirstClash(vs, name, except) == Some(vs[i])
    decreases i
  {
    if i > 0 {
      assert forall j :: 0 <= j < i - 1 ==> vs[1..][j] == vs[j + 1];
      FirstClashAt(vs[1..], name, except, i - 1);
    }
  }

  /** The reason InvalidVariationUpdate carries for a name already taken by variation `id`. */
  function NameTaken(id: Id): string {
    "Variation name already exists with id " + id
  }

  /** The name clash loop shared by the variation handlers: the first variation of `vs` that
      clashes with `name`, scanned in order. */
  method FindClash(vs: seq<Variation>, name: string, except: Option<Id>) returns (r: Option<Variation>)
    ensures r == FirstClash(vs, name, except)
  {
    for i := 0 to |vs|
      invariant forall j :: 0 <= j < i ==> !Clashes(vs[j], name, except)
    {
      if vs[i].name == name && (except.None? || vs[i].id != except.value) {
        FirstClashAt(vs, name, except, i);
        return Some(vs[i]);
      }
    }
    return None;
  }

  /** `create_variation_handler`; `variationId` is the fresh uuid. The new name is checked against
      every variation of the product, soft-deleted ones included. */
  method CreateVariation(uow: UnitOfWork, cmd: Command, variationId: Id) returns (r: Result<Variation>)
    requires cmd.CreateVariation? && uow.Valid()
    modifies uow, uow.users`seen, uow.products`seen, uow.variations`seen, uow.orders`seen, uow.productStore`items,
             Found(uow.productStore.items, ProductKey, cmd.productId)`variations
    ensures uow.Valid() && uow.productStore.items == old(uow.productStore.items)
    ensures uow.userStore.items == old(uow.userStore.items) && uow.orderStore.items == old(uow.orderStore.items)
    ensures uow.variationStore.items == old(uow.variationStore.items)
    ensures uow.users.seen == Entered(uow.flavor, old(uow.users.seen))
    ensures uow.variations.seen == EnteredSet(uow.flavor, old(uow.variations.seen))
    ensures uow.orders.seen == Entered(uow.flavor, old(uow.orders.seen))
    ensures uow.products.seen == match old(Lookup(uow.productStore.items, ProductKey, cmd.productId))
              case None => EnteredSet(uow.flavor, old(uow.products.seen))
              case Some(p) => EnteredSet(uow.flavor, old(uow.products.seen)) + {p}
    ensures old(Lookup(uow.productStore.items, ProductKey, cmd.productId)).None? ==>
              r == Err(ProductNotFound(cmd.productId)) && uow.commits == old(uow.commits)
    ensures var found := old(Lookup(uow.productStore.items, ProductKey, cmd.productId));
            found.Some? ==>
              var clash := old(FirstClash(found.value.variations, cmd.name, None));
              clash.Some? ==>
                r == Err(InvalidVariationUpdate(clash.value.id, NameTaken(clash.value.id))) &&
                found.value.variations == old(found.value.variations) && uow.commits == old(uow.commits)
    ensures var found := old(Lookup(uow.productStore.items, ProductKey, cmd.productId));
            found.Some? && old(FirstClash(found.value.variations, cmd.name, None)).None? ==>
              r.Ok? && fresh(r.value) && r.value.id == variationId && r.value.name == cmd.name &&
              r.value.price == cmd.price && r.value.productId == cmd.productId && r.value.isDeleted == 0 &&
              found.value.variations == old(found.value.variations) + [r.value] && uow.commits == old(uow.commits) + 1
  {
    ghost var found := Lookup(uow.productStore.items, ProductKey, cmd.productId);
    ghost var clash := if found.Some? then FirstClash(found.value.variations, cmd.name, None) else None;
    r := CreateVariationAt(uow, cmd.productId, cmd.name, cmd.price, variationId, found, clash);
  }

  /** `create_variation_handler` on the fields of its command, told in ghost arguments what it is
      about to find. */
  method CreateVariationAt(uow: UnitOfWork, productId: Id, name: string, price: int, variationId: Id,
                           ghost found: Option<Product>, ghost clash: Option<Variation>)
    returns (r: Result<Variation>)
    requires uow.Valid()
    requires found == Lookup(uow.productStore.items, ProductKey, productId)
    requires found.Some? ==> clash == FirstClash(found.value.variations, name, None)
    modifies uow, uow.users`seen, uow.products`seen, uow.variations`seen, uow.orders`seen, uow.productStore`items,
             Found(uow.productStore.items, ProductKey, productId)`variations
    ensures uow.Valid() && uow.productStore.items == old(uow.productStore.items)
    ensures uow.userStore.items == old(uow.userStore.items) && uow.orderStore.items == old(uow.orderStore.items)
    ensures uow.variationStore.items == old(uow.variationStore.items)
    ensures uow.users.seen == Entered(uow.flavor, old(uow.users.seen))
    ensures uow.variations.seen == EnteredSet(uow.flavor, old(uow.variations.seen))
    ensures uow.orders.seen == Entered(uow.flavor, old(uow.orders.seen))
    ensures uow.products.seen == match found
              case None => EnteredSet(uow.flavor, old(uow.products.seen))
              case Some(p) => EnteredSet(uow.flavor, old(uow.products.seen)) + {p}
    ensures found.None? ==> r == Err(ProductNotFound(productId)) && uow.commits == old(uow.commits)
    ensures found.Some? && clash.Some? ==>
              r == Err(InvalidVariationUpdate(clash.value.id, NameTaken(clash.value.id))) &&
              found.value.variations == old(found.value.variations) && uow.commits == old(uow.commits)
    ensures found.Some? && clash.None? ==>
              r.Ok? && fresh(r.value) && r.value.id == variationId && r.value.name == name &&
              r.value.price == price && r.value.productId == productId && r.value.isDeleted == 0 &&
              found.value.variations == old(found.value.variations) + [r.value] && uow.commits == old(uow.commits) + 1
  {
    uow.Enter();
    r := CreateVariationIn(uow, productId, name, price, variationId, found, clash);
  }

  /** `create_variation_handler` once its scope is entered. */
  method CreateVariationIn(uow: UnitOfWork, productId: Id, name: string, price: int, variationId: Id,
                           ghost found: Option<Product>, ghost clash: Option<Variation>)
    returns (r: Result<Variation>)
    requires uow.Valid()
    requires found == Lookup(uow.productStore.items, ProductKey, productId)
    requires found.Some? ==> clash == FirstClash(found.value.variations, name, None)
    modifies uow, uow.users`seen, uow.products`seen, uow.variations`seen, uow.orders`seen, uow.productStore`items,
             Found(uow.productStore.items, ProductKey, productId)`variations
    ensures uow.Valid() && uow.productStore.items == old(uow.productStore.items)
    ensures uow.userStore.items == old(uow.userStore.items) && uow.orderStore.items == old(uow.orderStore.items)
    ensures uow.variationStore.items == old(uow.variationStore.items)
    ensures uow.users.seen == old(uow.users.seen)
    ensures uow.variations.seen == old(uow.variations.seen)
    ensures uow.orders.seen == old(uow.orders.seen)
    ensures uow.products.seen == match found
              case None => old(uow.products.seen)
              case Some(p) => old(uow.products.seen) + {p}
    ensures found.None? ==> r == Err(ProductNotFound(productId)) && uow.commits == old(uow.commits)
    ensures found.Some? && clash.Some? ==>
              r == Err(InvalidVariationUpdate(clash.value.id, NameTaken(clash.value.id))) &&
              found.value.variations == old(found.value.variations) && uow.commits == old(uow.commits)
    ensures found.Some? && clash.None? ==>
              r.Ok? && fresh(r.value) && r.value.id == variationId && r.value.name == name &&
              r.value.price == price && r.value.productId == productId && r.value.isDeleted == 0 &&
              found.value.variations == old(found.value.variations) + [r.value] && uow.commits == old(uow.commits) + 1
  {
    var product := uow.products.Get(productId);
    assert product == found;
    if product.None? {
      uow.Exit(true);
      return Err(ProductNotFound(productId));
    }
    var variation := new Variation(variationId, name, price, productId);
    r := AddNewVariation(uow, product.value, variation, clash);
  }

  /** The part of `create_variation_handler` after the product `p` is found. */
  method AddNewVariation(uow: UnitOfWork, p: Product, variation: Variation, ghost clash: Option<Variation>)
    returns (r: Result<Variation>)
    requires uow.Valid() && Lookup(uow.productStore.items, ProductKey, p.id) == Some(p)
    requires clash == FirstClash(p.variations, variation.name, None)
    modifies uow.productStore`items, p`variations, uow`committed, uow`sessionCommits, uow`commits,
             uow`sessionOpen, uow`sessionRollbacks
    ensures uow.Valid() && uow.productStore.items == old(uow.productStore.items)
    ensures clash.Some? ==>
      r == Err(InvalidVariationUpdate(clash.value.id, NameTaken(clash.value.id))) &&
      p.variations == old(p.variations) && uow.commits == old(uow.commits)
    ensures clash.None? ==>
      r == Ok(variation) && p.variations == old(p.variations) + [variation] && uow.commits == old(uow.commits) + 1
  {
    var taken := FindClash(p.variations, variation.name, None);
    if taken.Some? {
      uow.Exit(true);
      return Err(InvalidVariationUpdate(taken.value.id, NameTaken(taken.value.id)));
    }
    ReplacedFound(uow.productStore.items, ProductKey, p);
    p.AddVariation(variation);
    uow.products.Update(p);
    uow.Commit();
    uow.Exit(false);
    return Ok(variation);
  }

  /** `cmd.name if cmd.name else variation.name`: None and the empty name keep the current one. */
  function NameOr(given: Option<string>, current: string): string {
    if given.Some? && given.value != "" then given.value else current
  }

  /** `cmd.price if cmd.price else variation.price`: None and zero keep the current price. */
  function PriceOr(given: Option<int>, current: int): int {
    if given.Some? && given.value != 0 then given.value else current
  }

  /** The variation `update_variation_handler` finds in `p`: the first active one with that id. */
  function Target(p: Product, variationId: Id): (r: Option<Variation>)
    reads p, p.variations
    ensures r.Some? ==> r.value in p.variations && r.value.isDeleted == 0 && r.value.id == variationId
  {
    ActiveFilters(p.variations);
    Lookup(p.ActiveVariations(), VariationKey, variationId)
  }

  /** The clash `update_variation_handler` reports: another active variation already bearing the
      requested name. No name requested, no clash. */
  function RenameClash(p: Product, name: Option<string>, variationId: Id): (r: Option<Variation>)
    reads p, p.variations
    ensures r.Some? ==>
              name.Some? && r.value in p.variations && r.value.isDeleted == 0 &&
              r.value.name == name.value && r.value.id != variationId
  {
    if name.None? then None
    else
      ActiveFilters(p.variations);
      FirstClash(Active(p.variations), name.value, Some(variationId))
  }

  /** `update_variation_handler` finds no variation exactly when no active one has the id. */
  lemma TargetMissing(p: Product, variationId: Id)
    ensures Target(p, variationId).None? <==>
              forall w :: w in p.variations && w.isDeleted == 0 ==> w.id != variationId
  {
    ActiveFilters(p.variations);
    var active := Active(p.variations);
    if Target(p, variationId).None? {
      forall w | w in p.variations && w.isDeleted == 0
        ensures w.id != variationId
      {
        var i :| 0 <= i < |active| && active[i] == w;
      }
    }
  }

  /** A rename clashes exactly when another active variation already has the requested name. */
  lemma RenameClashMissing(p: Product, name: Option<string>, variationId: Id)
    ensures RenameClash(p, name, variationId).None? <==>
              name.None? ||
              forall w :: w in p.variations && w.isDeleted == 0 ==> w.name != name.value || w.id == variationId
  {
    ActiveFilters(p.variations);
    var active := Active(p.variations);
    if name.Some? && RenameClash(p, name, variationId).None? {
      forall w | w in p.variations && w.isDeleted == 0
        ensures w.name != name.value || w.id == variationId
      {
        var i :| 0 <= i < |active| && active[i] == w;
        assert !Clashes(active[i], name.value, Some(variationId));
      }
    }
  }

  /** `update_variation_handler`. A missing product or active variation raises NotFound; a name
      held by another active variation raises InvalidVariationUpdate; otherwise name and price
      are replaced when the command gives a truthy value, the variation is listed again on the
      product (`add_variation` appends it a second time), it is updated in its repository and the
      unit of work commits. */
  method UpdateVariation(uow: UnitOfWork, cmd: Command) returns (r: Result<Variation>)
    requires cmd.UpdateVariation? && uow.Valid()
    modifies uow, uow.users`seen, uow.products`seen, uow.variations`seen, uow.orders`seen, uow.variationStore`items,
             Found(uow.productStore.items, ProductKey, cmd.productId)`variations,
             FoundVariations(uow.productStore.items, cmd.productId)`name,
             FoundVariations(uow.productStore.items, cmd.productId)`price
    ensures uow.Valid() && uow.productStore.items == old(uow.productStore.items)
    ensures uow.users.seen == Entered(uow.flavor, old(uow.users.seen))
    ensures uow.variations.seen == EnteredSet(uow.flavor, old(uow.variations.seen))
    ensures uow.orders.seen == Entered(uow.flavor, old(uow.orders.seen))
    ensures uow.products.seen == match old(Lookup(uow.productStore.items, ProductKey, cmd.productId))
              case None => EnteredSet(uow.flavor, old(uow.products.seen))
              case Some(p) => EnteredSet(uow.flavor, old(uow.products.seen)) + {p}
    ensures old(Lookup(uow.productStore.items, ProductKey, cmd.productId)).None? ==>
              r == Err(ProductNotFound(cmd.productId)) && uow.commits == old(uow.commits)
    ensures var found := old(Lookup(uow.productStore.items, ProductKey, cmd.productId));
            found.Some? && old(Target(found.value, cmd.variationId)).None? ==>
              r == Err(VariationNotFound(cmd.variationId)) &&
              found.value.variations == old(found.value.variations) && uow.commits == old(uow.commits)
    ensures var found := old(Lookup(uow.productStore.items, ProductKey, cmd.productId));
            found.Some? && old(Target(found.value, cmd.variationId)).Some? ==>
              var v := old(Target(found.value, cmd.variationId)).value;
              var clash := old(RenameClash(found.value, cmd.newName, cmd.variationId));
              clash.Some? ==>
                r == Err(InvalidVariationUpdate(clash.value.id, NameTaken(clash.value.id))) &&
                found.value.variations == old(found.value.variations) &&
                v.name == old(v.name) && v.price == old(v.price) && uow.commits == old(uow.commits)
    ensures var found := old(Lookup(uow.productStore.items, ProductKey, cmd.productId));
            found.Some? && old(Target(found.value, cmd.variationId)).Some? ==>
              var v := old(Target(found.value, cmd.variationId)).value;
              old(RenameClash(found.value, cmd.newName, cmd.variationId)).None? ==>
                r == Ok(v) && v.name == NameOr(cmd.newName, old(v.name)) &&
                v.price == PriceOr(cmd.newPrice, old(v.price)) &&
                found.value.variations == old(found.value.variations) + [v] &&
                uow.variationStore.items == Replaced(old(uow.variationStore.items), VariationKey, v) &&
                uow.commits == old(uow.commits) + 1
    ensures r.Err? ==> uow.variationStore.items == old(uow.variationStore.items)
    ensures var found := old(Lookup(uow.productStore.items, ProductKey, cmd.productId));
            found.Some? ==>
              var target := old(Target(found.value, cmd.variationId));
              forall w :: w in old(found.value.variations) ==>
                w.isDeleted == old(w.isDeleted) && (Some(w) != target ==> w.name == old(w.name) && w.price == old(w.price))
  {
    ghost var found := Lookup(uow.productStore.items, ProductKey, cmd.productId);
    ghost var target := if found.Some? then Target(found.value, cmd.variationId) else None;
    ghost var clash := if found.Some? then RenameClash(found.value, cmd.newName, cmd.variationId) else None;
    r := UpdateVariationAt(uow, cmd.productId, cmd.variationId, cmd.newName, cmd.newPrice, found, target, clash);
  }

  /** `update_variation_handler` on the fields of its command, told in ghost arguments what it is
      about to find. */
  method UpdateVariationAt(uow: UnitOfWork, productId: Id, variationId: Id, newName: Option<string>,
                           newPrice: Option<int>, ghost found: Option<Product>, ghost target: Option<Variation>,
                           ghost clash: Option<Variation>)
    returns (r: Result<Variation>)
    requires uow.Valid()
    requires found == Lookup(uow.productStore.items, ProductKey, productId)
    requires found.Some? ==>
               target == Target(found.value, variationId) && clash == RenameClash(found.value, newName, variationId)
    modifies uow, uow.users`seen, uow.products`seen, uow.variations`seen, uow.orders`seen, uow.variationStore`items,
             Found(uow.productStore.items, ProductKey, productId)`variations,
             FoundVariations(uow.productStore.items, productId)`name, FoundVariations(uow.productStore.items, productId)`price
    ensures uow.Valid() && uow.productStore.items == old(uow.productStore.items)
    ensures uow.users.seen == Entered(uow.flavor, old(uow.users.seen))
    ensures uow.variations.seen == EnteredSet(uow.flavor, old(uow.variations.seen))
    ensures uow.orders.seen == Entered(uow.flavor, old(uow.orders.seen))
    ensures uow.products.seen == match found
              case None => EnteredSet(uow.flavor, old(uow.products.seen))
              case Some(p) => EnteredSet(uow.flavor, old(uow.products.seen)) + {p}
    ensures found.None? ==> r == Err(ProductNotFound(productId)) && uow.commits == old(uow.commits)
    ensures found.Some? && target.None? ==>
              r == Err(VariationNotFound(variationId)) &&
              found.value.variations == old(found.value.variations) && uow.commits == old(uow.commits)
    ensures found.Some? && target.Some? && clash.Some? ==>
              r == Err(InvalidVariationUpdate(clash.value.id, NameTaken(clash.value.id))) &&
              found.value.variations == old(found.value.variations) &&
              target.value.name == old(target.value.name) && target.value.price == old(target.value.price) &&
              uow.commits == old(uow.commits)
    ensures found.Some? && target.Some? && clash.None? ==>
              var v := target.value;
              r == Ok(v) && v.name == NameOr(newName, old(v.name)) && v.price == PriceOr(newPrice, old(v.price)) &&
              found.value.variations == old(found.value.variations) + [v] &&
              uow.variationStore.items == Replaced(old(uow.variationStore.items), VariationKey, v) &&
              uow.commits == old(uow.commits) + 1
    ensures r.Err? ==> uow.variationStore.items == old(uow.variationStore.items)
    ensures found.Some? ==>
              forall w :: w in old(found.value.variations) ==>
                w.isDeleted == old(w.isDeleted) && (Some(w) != target ==> w.name == old(w.name) && w.price == old(w.price))
  {
    uow.Enter();
    assert uow.productStore.items == old(uow.productStore.items) &&
           uow.variationStore.items == old(uow.variationStore.items);
    assert uow.users.seen == Entered(uow.flavor, old(uow.users.seen)) &&
           uow.variations.seen == EnteredSet(uow.flavor, old(uow.variations.seen)) &&
           uow.orders.seen == Entered(uow.flavor, old(uow.orders.seen));
    assert uow.products.seen == EnteredSet(uow.flavor, old(uow.products.seen));
    assert uow.commits == old(uow.commits);
    assert found.Some? ==> found.value.variations == old(found.value.variations);
    assert FoundVariations(uow.productStore.items, productId) == old(FoundVariations(uow.productStore.items, productId));
    assert found.Some? ==>
             forall w :: w in found.value.variations ==>
               w.isDeleted == old(w.isDeleted) && w.name == old(w.name) && w.price == old(w.price);
    r := UpdateVariationIn(uow, productId, variationId, newName, newPrice, found, target, clash);
  }

  /** `update_variation_handler` once its scope is entered. */
  method UpdateVariationIn(uow: UnitOfWork, productId: Id, variationId: Id, newName: Option<string>,
                           newPrice: Option<int>, ghost found: Option<Product>, ghost target: Option<Variation>,
                           ghost clash: Option<Variation>)
    returns (r: Result<Variation>)
    requires uow.Valid()
    requires found == Lookup(uow.productStore.items, ProductKey, productId)
    requires found.Some? ==>
               target == Target(found.value, variationId) && clash == RenameClash(found.value, newName, variationId)
    modifies uow, uow.products`seen, uow.variationStore`items,
             Found(uow.productStore.items, ProductKey, productId)`variations,
             FoundVariations(uow.productStore.items, productId)`name, FoundVariations(uow.productStore.items, productId)`price
    ensures uow.Valid() && uow.productStore.items == old(uow.productStore.items)
    ensures uow.users.seen == old(uow.users.seen)
    ensures uow.variations.seen == old(uow.variations.seen)
    ensures uow.orders.seen == old(uow.orders.seen)
    ensures uow.products.seen == match found
              case None => old(uow.products.seen)
              case Some(p) => old(uow.products.seen) + {p}
    ensures found.None? ==> r == Err(ProductNotFound(productId)) && uow.commits == old(uow.commits)
    ensures found.Some? && target.None? ==>
              r == Err(VariationNotFound(variationId)) &&
              found.value.variations == old(found.value.variations) && uow.commits == old(uow.commits)
    ensures found.Some? && target.Some? && clash.Some? ==>
              r == Err(InvalidVariationUpdate(clash.value.id, NameTaken(clash.value.id))) &&
              found.value.variations == old(found.value.variations) &&
              target.value.name == old(target.value.name) && target.value.price == old(target.value.price) &&
              uow.commits == old(uow.commits)
    ensures found.Some? && target.Some? && clash.None? ==>
              var v := target.value;
              r == Ok(v) && v.name == NameOr(newName, old(v.name)) && v.price == PriceOr(newPrice, old(v.price)) &&
              found.value.variations == old(found.value.variations) + [v] &&
              uow.variationStore.items == Replaced(old(uow.variationStore.items), VariationKey, v) &&
              uow.commits == old(uow.commits) + 1
    ensures r.Err? ==> uow.variationStore.items == old(uow.variationStore.items)
    ensures found.Some? ==>
              forall w :: w in old(found.value.variations) ==>
                w.isDeleted == old(w.isDeleted) && (Some(w) != target ==> w.name == old(w.name) && w.price == old(w.price))
  {
    var product := uow.products.Get(productId);
    assert product == found;
    if product.None? {
      uow.Exit(true);
      return Err(ProductNotFound(productId));
    }
    r := ReviseVariation(uow, product.value, variationId, newName, newPrice, target, clash);
  }

  /** The part of `update_variation_handler` after the product `p` is found. */
  method ReviseVariation(uow: UnitOfWork, p: Product, variationId: Id, newName: Option<string>,
                         newPrice: Option<int>, ghost target: Option<Variation>, ghost clash: Option<Variation>)
    returns (r: Result<Variation>)
    requires uow.Valid()
    requires target == Target(p, variationId) && clash == RenameClash(p, newName, variationId)
    modifies uow.variationStore`items, p`variations, p.variations`name, p.variations`price,
             uow`committed, uow`sessionCommits, uow`commits, uow`sessionOpen, uow`sessionRollbacks
    ensures uow.Valid() && uow.productStore.items == old(uow.productStore.items)
    ensures uow.users.seen == old(uow.users.seen) && uow.products.seen == old(uow.products.seen)
    ensures uow.variations.seen == old(uow.variations.seen) && uow.orders.seen == old(uow.orders.seen)
    ensures target.None? ==>
              r == Err(VariationNotFound(variationId)) && p.variations == old(p.variations) &&
              uow.commits == old(uow.commits)
    ensures target.Some? && clash.Some? ==>
              r == Err(InvalidVariationUpdate(clash.value.id, NameTaken(clash.value.id))) &&
              p.variations == old(p.variations) && target.value.name == old(target.value.name) &&
              target.value.price == old(target.value.price) && uow.commits == old(uow.commits)
    ensures target.Some? && clash.None? ==>
              var v := target.value;
              r == Ok(v) && v.name == NameOr(newName, old(v.name)) && v.price == PriceOr(newPrice, old(v.price)) &&
              p.variations == old(p.variations) + [v] &&
              uow.variationStore.items == Replaced(old(uow.variationStore.items), VariationKey, v) &&
              uow.commits == old(uow.commits) + 1
    ensures r.Err? ==> uow.variationStore.items == old(uow.variationStore.items)
    ensures forall w :: w in old(p.variations) ==>
              w.isDeleted == old(w.isDeleted) && (Some(w) != target ==> w.name == old(w.name) && w.price == old(w.price))
  {
    var checked := CheckVariation(p, variationId, newName);
    if checked.Err? {
      uow.Exit(true);
      return checked;
    }
    SaveVariation(uow, p, checked.value, newName, newPrice);
    return checked;
  }

  /** The two refusals of `update_variation_handler` on a found product, in the code's order:
      the variation must be an active one of `p`, and a new name must not be borne by another
      active variation. On success the variation to revise is returned. */
  method CheckVariation(p: Product, variationId: Id, newName: Option<string>) returns (r: Result<Variation>)
    ensures Target(p, variationId).None? ==> r == Err(VariationNotFound(variationId))
    ensures var clash := RenameClash(p, newName, variationId);
            Target(p, variationId).Some? && clash.Some? ==>
              r == Err(InvalidVariationUpdate(clash.value.id, NameTaken(clash.value.id)))
    ensures Target(p, variationId).Some? && RenameClash(p, newName, variationId).None? ==>
              r == Ok(Target(p, variationId).value)
  {
    var variation := p.GetVariationById(variationId);
    if variation.None? {
      return Err(VariationNotFound(variationId));
    }
    if newName.Some? {
      var taken := FindClash(p.ActiveVariations(), newName.value, Some(variationId));
      if taken.Some? {
        return Err(InvalidVariationUpdate(taken.value.id, NameTaken(taken.value.id)));
      }
    }
    return Ok(variation.value);
  }

  /** The end of `update_variation_handler` once no check has failed. */
  method SaveVariation(uow: UnitOfWork, p: Product, v: Variation, newName: Option<string>, newPrice: Option<int>)
    requires uow.Valid()
    modifies uow.variationStore`items, p`variations, v`name, v`price,
             uow`committed, uow`sessionCommits, uow`commits, uow`sessionOpen, uow`sessionRollbacks
    ensures uow.Valid()
    ensures v.name == NameOr(newName, old(v.name)) && v.price == PriceOr(newPrice, old(v.price))
    ensures p.variations == old(p.variations) + [v]
    ensures uow.variationStore.items == Replaced(old(uow.variationStore.items), VariationKey, v)
    ensures uow.commits == old(uow.commits) + 1
    ensures forall w :: w in old(p.variations) ==>
              w.isDeleted == old(w.isDeleted) && (w != v ==> w.name == old(w.name) && w.price == old(w.price))
  {
    v.name := NameOr(newName, v.name);
    v.price := PriceOr(newPrice, v.price);
    p.AddVariation(v);
    uow.variations.Update(v);
    uow.Commit();
    uow.Exit(false);
  }

  /** `delete_variation_handler`: soft-deletes the product's first active variation with that id;
      the ValueError of `remove_variation` escapes when there is none. */
  method DeleteVariation(uow: UnitOfWork, cmd: Command) returns (r: Result<Product>)
    requires cmd.DeleteVariation? && uow.Valid()
    modifies uow, uow.users`seen, uow.products`seen, uow.variations`seen, uow.orders`seen, uow.productStore`items,
             FoundVariations(uow.productStore.items, cmd.productId)`isDeleted
    ensures uow.Valid() && uow.productStore.items == old(uow.productStore.items)
    ensures uow.users.seen == Entered(uow.flavor, old(uow.users.seen))
    ensures uow.variations.seen == EnteredSet(uow.flavor, old(uow.variations.seen))
    ensures uow.orders.seen == Entered(uow.flavor, old(uow.orders.seen))
    ensures var found := old(Lookup(uow.productStore.items, ProductKey, cmd.productId));
            found.Some? ==> found.value.variations == old(found.value.variations)
    ensures uow.products.seen == match old(Lookup(uow.productStore.items, ProductKey, cmd.productId))
              case None => EnteredSet(uow.flavor, old(uow.products.seen))
              case Some(p) => EnteredSet(uow.flavor, old(uow.products.seen)) + {p}
    ensures old(Lookup(uow.productStore.items, ProductKey, cmd.productId)).None? ==>
              r == Err(ProductNotFound(cmd.productId)) && uow.commits == old(uow.commits)
    ensures var found := old(Lookup(uow.productStore.items, ProductKey, cmd.productId));
            found.Some? && old(Target(found.value, cmd.variationId)).None? ==>
              r == Err(ValueError(NoSuchVariation)) && uow.commits == old(uow.commits) &&
              forall w :: w in found.value.variations ==> w.isDeleted == old(w.isDeleted)
    ensures var found := old(Lookup(uow.productStore.items, ProductKey, cmd.productId));
            found.Some? && old(Target(found.value, cmd.variationId)).Some? ==>
              var target := old(Target(found.value, cmd.variationId)).value;
              r == Ok(found.value) && target.isDeleted == 1 && uow.commits == old(uow.commits) + 1 &&
              forall w :: w in found.value.variations && w != target ==> w.isDeleted == old(w.isDeleted)
  {
    ghost var found := Lookup(uow.productStore.items, ProductKey, cmd.productId);
    ghost var target := if found.Some? then Target(found.value, cmd.variationId) else None;
    r := DeleteVariationAt(uow, cmd.productId, cmd.variationId, found, target);
  }

  /** `delete_variation_handler` on the fields of its command, told in ghost arguments what it is
      about to find. */
  method DeleteVariationAt(uow: UnitOfWork, productId: Id, variationId: Id, ghost found: Option<Product>,
                           ghost target: Option<Variation>) returns (r: Result<Product>)
    requires uow.Valid()
    requires found == Lookup(uow.productStore.items, ProductKey, productId)
    requires found.Some? ==> target == Target(found.value, variationId)
    modifies uow, uow.users`seen, uow.products`seen, uow.variations`seen, uow.orders`seen, uow.productStore`items, FoundVariations(uow.productStore.items, productId)`isDeleted
    ensures uow.Valid() && uow.productStore.items == old(uow.productStore.items)
    ensures uow.users.seen == Entered(uow.flavor, old(uow.users.seen))
    ensures uow.variations.seen == EnteredSet(uow.flavor, old(uow.variations.seen))
    ensures uow.orders.seen == Entered(uow.flavor, old(uow.orders.seen))
    ensures found.Some? ==> found.value.variations == old(found.value.variations)
    ensures uow.products.seen == match found
              case None => EnteredSet(uow.flavor, old(uow.products.seen))
              case Some(p) => EnteredSet(uow.flavor, old(uow.products.seen)) + {p}
    ensures found.None? ==> r == Err(ProductNotFound(productId)) && uow.commits == old(uow.commits)
    ensures found.Some? && target.None? ==> r == Err(ValueError(NoSuchVariation)) && uow.commits == old(uow.commits)
    ensures found.Some? && target.Some? ==>
              r == Ok(found.value) && target.value.isDeleted == 1 && uow.commits == old(uow.commits) + 1
    ensures found.Some? && target.None? ==>
              forall w :: w in found.value.variations ==> w.isDeleted == old(w.isDeleted)
    ensures found.Some? && target.Some? ==>
              forall w :: w in found.value.variations && w != target.value ==> w.isDeleted == old(w.isDeleted)
  {
    uow.Enter();
    assert uow.productStore.items == old(uow.productStore.items);
    assert uow.users.seen == Entered(uow.flavor, old(uow.users.seen)) &&
           uow.variations.seen == EnteredSet(uow.flavor, old(uow.variations.seen)) &&
           uow.orders.seen == Entered(uow.flavor, old(uow.orders.seen));
    assert uow.products.seen == EnteredSet(uow.flavor, old(uow.products.seen));
    assert found.Some? ==> forall w :: w in found.value.variations ==> w.isDeleted == old(w.isDeleted);
    r := DeleteVariationIn(uow, productId, variationId, found, target);
  }

  /** `delete_variation_handler` once its scope is entered. */
  method DeleteVariationIn(uow: UnitOfWork, productId: Id, variationId: Id, ghost found: Option<Product>,
                           ghost target: Option<Variation>) returns (r: Result<Product>)
    requires uow.Valid()
    requires found == Lookup(uow.productStore.items, ProductKey, productId)
    requires found.Some? ==> target == Target(found.value, variationId)
    modifies uow, uow.products`seen, uow.productStore`items, FoundVariations(uow.productStore.items, productId)`isDeleted
    ensures uow.Valid() && uow.productStore.items == old(uow.productStore.items)
    ensures uow.users.seen == old(uow.users.seen)
    ensures uow.variations.seen == old(uow.variations.seen)
    ensures uow.orders.seen == old(uow.orders.seen)
    ensures found.Some? ==> found.value.variations == old(found.value.variations)
    ensures uow.products.seen == match found
              case None => old(uow.products.seen)
              case Some(p) => old(uow.products.seen) + {p}
    ensures found.None? ==> r == Err(ProductNotFound(productId)) && uow.commits == old(uow.commits)
    ensures found.Some? && target.None? ==> r == Err(ValueError(NoSuchVariation)) && uow.commits == old(uow.commits)
    ensures found.Some? && target.Some? ==>
              r == Ok(found.value) && target.value.isDeleted == 1 && uow.commits == old(uow.commits) + 1
    ensures found.Some? && target.None? ==>
              forall w :: w in found.value.variations ==> w.isDeleted == old(w.isDeleted)
    ensures found.Some? && target.Some? ==>
              forall w :: w in found.value.variations && w != target.value ==> w.isDeleted == old(w.isDeleted)
  {
    var product := uow.products.Get(productId);
    assert product == found;
    if product.None? {
      uow.Exit(true);
      return Err(ProductNotFound(productId));
    }
    r := RemoveFromProduct(uow, product.value, variationId, target);
  }

  /** The rest of `delete_variation_handler` once product `p`, the one stored under its id, is
      found: `remove_variation`, then the write-back and the commit. */
  method RemoveFromProduct(uow: UnitOfWork, p: Product, variationId: Id, ghost target: Option<Variation>)
    returns (r: Result<Product>)
    requires uow.Valid() && Lookup(uow.productStore.items, ProductKey, p.id) == Some(p)
    requires target == Target(p, variationId)
    modifies uow, uow.productStore`items, p.variations`isDeleted
    ensures uow.Valid() && uow.productStore.items == old(uow.productStore.items)
    ensures target.None? ==>
              r == Err(ValueError(NoSuchVariation)) && uow.commits == old(uow.commits) &&
              forall w :: w in p.variations ==> w.isDeleted == old(w.isDeleted)
    ensures target.Some? ==>
              r == Ok(p) && target.value.isDeleted == 1 && uow.commits == old(uow.commits) + 1 &&
              forall w :: w in p.variations && w != target.value ==> w.isDeleted == old(w.isDeleted)
  {
    assert target == Lookup(p.ActiveVariations(), VariationKey, variationId);
    var err := p.RemoveVariation(variationId);
    if err.Some? {
      uow.Exit(true);
      return Err(err.value);
    }
    CommitProduct(uow, p);
    return Ok(p);
  }

  /** `await uow.products.update(product)` and the commit, on a product already stored
      under its id: the list is left as it was, and one commit happens. */
  method CommitProduct(uow: UnitOfWork, p: Product)
    requires uow.Valid() && Lookup(uow.productStore.items, ProductKey, p.id) == Some(p)
    modifies uow, uow.productStore`items
    ensures uow.Valid() && uow.productStore.items == old(uow.productStore.items)
    ensures uow.commits == old(uow.commits) + 1
  {
    ReplacedFound(uow.productStore.items, ProductKey, p);
    uow.products.Update(p);
    uow.Commit();
    uow.Exit(false);
  }

  // ---------------------------------------------------------------- products

  /** Dataclass equality of two variations: every field compared by value. */
  predicate SameFields(a: Variation, b: Variation)
    reads a, b
  {
    a.id == b.id && a.name == b.name && a.price == b.price && a.productId == b.productId &&
    a.isDeleted == b.isDeleted
  }

  /** `w in vs` under dataclass equality. */
  predicate ListedIn(w: Variation, vs: seq<Variation>)
    reads w, vs
  {
    exists i :: 0 <= i < |vs| && SameFields(vs[i], w)
  }

  /** The membership test `var not in product.get_active_variations()`, as a scan. */
  method IsListed(w: Variation, vs: seq<Variation>) returns (b: bool)
    ensures b == ListedIn(w, vs)
  {
    for i := 0 to |vs|
      invariant forall j :: 0 <= j < i ==> !SameFields(vs[j], w)
    {
      if vs[i].id == w.id && vs[i].name == w.name && vs[i].price == w.price &&
         vs[i].productId == w.productId && vs[i].isDeleted == w.isDeleted {
        return true;
      }
    }
    return false;
  }

  /** The body of the loop of `product_variations` for the patch `patch` and the variation `w`
      it named: a variation not listed among the product's active ones is appended as it is;
      a listed one takes every field of the patch that is not None. */
  method ApplyPatch(p: Product, w: Variation, patch: VariationPatch)
    requires w.id == patch.id
    modifies p`variations, w`name, w`price
    ensures !old(ListedIn(w, p.ActiveVariations())) ==>
              p.variations == old(p.variations) + [w] && w.name == old(w.name) && w.price == old(w.price)
    ensures old(ListedIn(w, p.ActiveVariations())) ==>
              p.variations == old(p.variations) &&
              w.name == (if patch.name.Some? then patch.name.value else old(w.name)) &&
              w.price == (if patch.price.Some? then patch.price.value else old(w.price))
  {
    var listed := IsListed(w, p.ActiveVariations());
    assert listed == ListedIn(w, p.ActiveVariations());
    assert listed == old(ListedIn(w, p.ActiveVariations()));
    if !listed {
      p.variations := p.variations + [w];
    } else {
      if patch.name.Some? {
        w.name := patch.name.value;
      }
      if patch.price.Some? {
        w.price := patch.price.value;
      }
    }
  }

  /** The ids of the variations of `items`. */
  function StoredIds(items: seq<Variation>): set<Id> {
    set v | v in items :: v.id
  }

  /** A search by id in `items` finds something exactly when the id is stored. */
  lemma LookupStored(items: seq<Variation>, k: Id)
    ensures Lookup(items, VariationKey, k).Some? <==> k in StoredIds(items)
  {
    if k in StoredIds(items) {
      var v :| v in items && v.id == k;
      var j :| 0 <= j < |items| && items[j] == v;
      assert VariationKey(items[j]) == k;
    }
  }

  /** The index of the first patch whose id is not among `ids`. */
  function FirstMissing(patches: seq<VariationPatch>, ids: set<Id>): (r: Option<nat>)
    ensures r.Some? ==> r.value < |patches| && patches[r.value].id !in ids
    ensures r.Some? ==> forall j :: 0 <= j < r.value ==> patches[j].id in ids
    ensures r.None? <==> forall j :: 0 <= j < |patches| ==> patches[j].id in ids
  {
    if patches == [] then None
    else if patches[0].id !in ids then Some(0)
    else match FirstMissing(patches[1..], ids)
      case None => None
      case Some(i) => Some(i + 1)
  }

  /** The scan of `FirstMissing` one patch further: past a patch whose id is held, or stopping
      at one whose id is not. */
  lemma FirstMissingStep(patches: seq<VariationPatch>, ids: set<Id>, n: nat)
    requires n < |patches|
    requires FirstMissing(patches, ids).Some? ==> n <= FirstMissing(patches, ids).value
    ensures patches[n].id in ids ==>
              (FirstMissing(patches, ids).Some? ==> n + 1 <= FirstMissing(patches, ids).value)
    ensures patches[n].id !in ids ==> FirstMissing(patches, ids) == Some(n)
  {
  }

  /** The variations of the store that some patch names: all that `product_variations` may
      rename or reprice. */
  ghost function Touched(items: seq<Variation>, patches: seq<VariationPatch>): set<Variation> {
    set w | w in items && w.id in PatchIds(patches)
  }

  /** The patches `product_variations` runs: all of them, or those before the first whose id
      is not among `ids`, where it raises. */
  function PatchesRun(patches: seq<VariationPatch>, ids: set<Id>): seq<VariationPatch> {
    match FirstMissing(patches, ids)
    case None => patches
    case Some(k) => patches[..k]
  }

  /** What `uow.variations.get` returns for the patches, one after another: for each, the first
      variation of the store with its id, if there is one. These join the repository's `seen`. */
  ghost function Fetched(items: seq<Variation>, patches: seq<VariationPatch>): set<Variation> {
    if patches == [] then {}
    else Fetched(items, patches[..|patches| - 1]) + Found(items, VariationKey, patches[|patches| - 1].id)
  }

  /** One patch further, the fetched variations gain what `get` returns for that patch. */
  lemma FetchedStep(items: seq<Variation>, patches: seq<VariationPatch>, n: nat)
    requires n < |patches|
    ensures Fetched(items, patches[..n + 1]) == Fetched(items, patches[..n]) + Found(items, VariationKey, patches[n].id)
  {
    assert patches[..n + 1][..n] == patches[..n];
  }

  /** The variations fetched for the patches are among those of the store that they name. */
  lemma {:induction false} FetchedTouched(items: seq<Variation>, patches: seq<VariationPatch>)
    ensures Fetched(items, patches) <= Touched(items, patches)
  {
    if patches != [] {
      var init := patches[..|patches| - 1];
      FetchedTouched(items, init);
      assert PatchIds(patches) == PatchIds(init) + {patches[|patches| - 1].id};
    }
  }

  /** The ids the patches name. */
  function PatchIds(patches: seq<VariationPatch>): set<Id> {
    if patches == [] then {} else PatchIds(patches[..|patches| - 1]) + {patches[|patches| - 1].id}
  }

  /** One pass of the loop of `product_variations`: the repository fetch of the variation
      the patch names, then `ApplyPatch` on it when it exists. */
  method PatchStep(repo: VariationRepository, p: Product, patch: VariationPatch) returns (found: Option<Variation>)
    requires repo.store.key == VariationKey
    modifies repo`seen, p`variations,
             (set w | w in repo.store.items && w.id == patch.id)`name,
             (set w | w in repo.store.items && w.id == patch.id)`price
    ensures found.Some? <==> patch.id in StoredIds(repo.store.items)
    ensures found.Some? ==> found.value in repo.store.items && found.value.id == patch.id
    ensures found.None? ==> p.variations == old(p.variations)
    ensures found.Some? ==> p.variations == old(p.variations) || p.variations == old(p.variations) + [found.value]
    ensures found == Lookup(repo.store.items, VariationKey, patch.id)
    ensures repo.seen == old(repo.seen) + Found(repo.store.items, VariationKey, patch.id)
  {
    found := repo.Get(patch.id);
    LookupStored(repo.store.items, patch.id);
    if found.Some? {
      ApplyPatch(p, found.value, patch);
    }
  }

  /** A prefix of `patches` names no id `patches` does not. */
  lemma {:induction false} PatchIdsPrefix(patches: seq<VariationPatch>, n: nat)
    requires n <= |patches|
    ensures PatchIds(patches[..n]) <= PatchIds(patches)
    decreases |patches| - n
  {
    if n < |patches| {
      PatchIdsPrefix(patches, n + 1);
      assert patches[..n + 1][..n] == patches[..n];
    } else {
      assert patches[..n] == patches;
    }
  }

  /** The id of every patch is among the ids the patches name. */
  lemma PatchIdsHas(patches: seq<VariationPatch>, n: nat)
    requires n < |patches|
    ensures patches[n].id in PatchIds(patches)
  {
    PatchIdsPrefix(patches, n + 1);
    assert patches[..n + 1][..n] == patches[..n];
  }

  /** The variations appended after `n` patches stay variations of the store named by the
      patches applied, when one more variation named by patch `n` is appended. */
  lemma AppendedGrows(items: seq<Variation>, patches: seq<VariationPatch>, n: nat,
                      added: seq<Variation>, v: Variation)
    requires n < |patches|
    requires forall u :: u in added ==> u in items && u.id in PatchIds(patches[..n])
    requires v in items && v.id == patches[n].id
    ensures forall u :: u in added + [v] ==> u in items && u.id in PatchIds(patches[..n + 1])
  {
    assert patches[..n + 1][..n] == patches[..n];
  }

  /** One pass of the loop of `PatchAll`, on patch `n`, with what the loop keeps: the list is
      `start` followed by `added`, and `seen` is `seen0` with what the first `n` patches fetched.
      Without a fetch nothing changes; otherwise both keep that shape one patch further. */
  method PatchNext(repo: VariationRepository, p: Product, patches: seq<VariationPatch>, n: nat,
                   ghost start: seq<Variation>, ghost added: seq<Variation>, ghost seen0: set<Variation>)
    returns (found: Option<Variation>, ghost grown: seq<Variation>)
    requires repo.store.key == VariationKey && n < |patches|
    requires p.variations == start + added
    requires forall v :: v in added ==> v in repo.store.items && v.id in PatchIds(patches[..n])
    requires repo.seen == seen0 + Fetched(repo.store.items, patches[..n])
    modifies repo`seen, p`variations,
             (set w | w in repo.store.items && w.id == patches[n].id)`name,
             (set w | w in repo.store.items && w.id == patches[n].id)`price
    ensures found.Some? <==> patches[n].id in StoredIds(repo.store.items)
    ensures found.None? ==> grown == added && p.variations == old(p.variations) && repo.seen == old(repo.seen)
    ensures found.Some? ==> p.variations == start + grown
    ensures found.Some? ==> forall v :: v in grown ==> v in repo.store.items && v.id in PatchIds(patches[..n + 1])
    ensures found.Some? ==> repo.seen == seen0 + Fetched(repo.store.items, patches[..n + 1])
  {
    found := PatchStep(repo, p, patches[n]);
    grown := added;
    if found.Some? {
      FetchedStep(repo.store.items, patches, n);
      AppendedGrows(repo.store.items, patches, n, added, found.value);
      if p.variations != start + added {
        grown := added + [found.value];
      }
    }
  }

  /** The loop of `product_variations`: applies the patches in order and stops at the first
      whose id the store does not hold; `n` is the number of patches applied. The product's list
      only grows at its end, and only by variations of the store the applied patches name;
      variations those patches do not name keep their name and price. */
  method PatchAll(repo: VariationRepository, patches: seq<VariationPatch>, p: Product) returns (n: nat)
    requires repo.store.key == VariationKey
    modifies repo`seen, p`variations,
             Touched(repo.store.items, patches)`name, Touched(repo.store.items, patches)`price
    ensures n <= |patches|
    ensures FirstMissing(patches, StoredIds(repo.store.items)) == if n < |patches| then Some(n) else None
    ensures old(p.variations) <= p.variations
    ensures forall v :: v in p.variations[|old(p.variations)|..] ==>
              v in repo.store.items && v.id in PatchIds(patches[..n])
    ensures repo.seen == old(repo.seen) + Fetched(repo.store.items, patches[..n])
  {
    ghost var items: seq<Variation> := repo.store.items;
    ghost var missing := FirstMissing(patches, StoredIds(items));
    ghost var added: seq<Variation> := [];
    n := 0;
    while n < |patches|
      invariant n <= |patches| && repo.store.items == items
      invariant missing.Some? ==> n <= missing.value
      invariant p.variations == old(p.variations) + added
      invariant forall v :: v in added ==> v in items && v.id in PatchIds(patches[..n])
      invariant repo.seen == old(repo.seen) + Fetched(items, patches[..n])
    {
      PatchIdsHas(patches, n);
      var found: Option<Variation>;
      found, added := PatchNext(repo, p, patches, n, old(p.variations), added, old(repo.seen));
      FirstMissingStep(patches, StoredIds(items), n);
      if found.None? {
        assert p.variations[|old(p.variations)|..] == added;
        return;
      }
      n := n + 1;
    }
    assert p.variations[|old(p.variations)|..] == added;
  }

  /** `product_variations`: each patch fetches its variation through the repository, raising
      VariationNotFound at the first id the store does not hold (what earlier patches did stays
      done); otherwise the patch is applied as `ApplyPatch` says. The product's list only grows
      at its end, and only by patched variations of the store; variations no patch names keep
      their name and price. */
  method ProductVariations(uow: UnitOfWork, patches: seq<VariationPatch>, p: Product)
    returns (err: Option<Failure>)
    requires uow.Valid()
    modifies uow.variations`seen, p`variations,
             Touched(uow.variationStore.items, patches)`name, Touched(uow.variationStore.items, patches)`price
    ensures err == match FirstMissing(patches, StoredIds(uow.variationStore.items))
                   case None => None
                   case Some(k) => Some(VariationNotFound(patches[k].id))
    ensures old(p.variations) <= p.variations
    ensures forall i :: |old(p.variations)| <= i < |p.variations| ==>
              p.variations[i] in uow.variationStore.items && p.variations[i].id in PatchIds(patches)
    ensures forall w :: w in old(p.variations) ==>
              w.isDeleted == old(w.isDeleted) &&
              (w.id !in PatchIds(patches) ==> w.name == old(w.name) && w.price == old(w.price))
    ensures uow.variations.seen ==
              old(uow.variations.seen) + Fetched(uow.variationStore.items, PatchesRun(patches, StoredIds(uow.variationStore.items)))
  {
    var n := PatchAll(uow.variations, patches, p);
    PatchIdsPrefix(patches, n);
    assert n == |patches| ==> patches[..n] == patches;
    if n < |patches| {
      return Some(VariationNotFound(patches[n].id));
    }
    return None;
  }

  /** A command field that overwrites the current value unless it is None. */
  function Overwrite<T>(given: Option<T>, current: T): T {
    if given.Some? then given.value else current
  }

  /** `update_product_attributes`: every attribute of the command other than the variations
      that is not None is set on the product (setting the id again changes nothing). */
  method UpdateProductAttributes(p: Product, newName: Option<string>, newPrice: Option<int>,
                                 newDescription: Option<string>)
    modifies p`name, p`price, p`description
    ensures p.name == Overwrite(newName, old(p.name))
    ensures p.price == Overwrite(newPrice, old(p.price))
    ensures p.description == Overwrite(newDescription, old(p.description))
  {
    if newName.Some? {
      p.name := newName.value;
    }
    if newPrice.Some? {
      p.price := newPrice.value;
    }
    if newDescription.Some? {
      p.description := newDescription.value;
    }
  }

  /** The patches of an `UpdateProduct`; None and an empty list both mean none. */
  function PatchesOf(patches: Option<seq<VariationPatch>>): seq<VariationPatch> {
    if patches.Some? then patches.value else []
  }

  /** `update_product_handler`. A missing product raises ProductNotFound; a patch naming a
      variation the store does not hold raises VariationNotFound, before any attribute is set and
      without a commit; otherwise the attributes are set, the product is written back and the
      unit of work commits. */
  method UpdateProduct(uow: UnitOfWork, cmd: Command) returns (r: Result<Product>)
    requires cmd.UpdateProduct? && uow.Valid()
    modifies uow, uow.users`seen, uow.products`seen, uow.variations`seen, uow.orders`seen, uow.productStore`items,
             Found(uow.productStore.items, ProductKey, cmd.id)`name, Found(uow.productStore.items, ProductKey, cmd.id)`price,
             Found(uow.productStore.items, ProductKey, cmd.id)`description,
             Found(uow.productStore.items, ProductKey, cmd.id)`variations,
             Touched(uow.variationStore.items, PatchesOf(cmd.patches))`name,
             Touched(uow.variationStore.items, PatchesOf(cmd.patches))`price
    ensures uow.Valid() && uow.productStore.items == old(uow.productStore.items)
    ensures uow.variationStore.items == old(uow.variationStore.items)
    ensures uow.users.seen == Entered(uow.flavor, old(uow.users.seen))
    ensures uow.orders.seen == Entered(uow.flavor, old(uow.orders.seen))
    ensures uow.products.seen == match old(Lookup(uow.productStore.items, ProductKey, cmd.id))
              case None => EnteredSet(uow.flavor, old(uow.products.seen))
              case Some(p) => EnteredSet(uow.flavor, old(uow.products.seen)) + {p}
    ensures uow.variations.seen == match old(Lookup(uow.productStore.items, ProductKey, cmd.id))
              case None => EnteredSet(uow.flavor, old(uow.variations.seen))
              case Some(_) => EnteredSet(uow.flavor, old(uow.variations.seen)) +
                                Fetched(uow.variationStore.items,
                                        PatchesRun(PatchesOf(cmd.patches), StoredIds(uow.variationStore.items)))
    ensures old(Lookup(uow.productStore.items, ProductKey, cmd.id)).None? ==>
              r == Err(ProductNotFound(cmd.id)) && uow.commits == old(uow.commits)
    ensures var found := old(Lookup(uow.productStore.items, ProductKey, cmd.id));
            var missing := FirstMissing(PatchesOf(cmd.patches), StoredIds(uow.variationStore.items));
            found.Some? && missing.Some? ==>
              r == Err(VariationNotFound(PatchesOf(cmd.patches)[missing.value].id)) &&
              uow.commits == old(uow.commits) &&
              found.value.name == old(found.value.name) && found.value.price == old(found.value.price) &&
              found.value.description == old(found.value.description)
    ensures var found := old(Lookup(uow.productStore.items, ProductKey, cmd.id));
            var missing := FirstMissing(PatchesOf(cmd.patches), StoredIds(uow.variationStore.items));
            found.Some? && missing.None? ==>
              r == Ok(found.value) && uow.commits == old(uow.commits) + 1 &&
              found.value.name == Overwrite(cmd.newName, old(found.value.name)) &&
              found.value.price == Overwrite(cmd.newPrice, old(found.value.price)) &&
              found.value.description == Overwrite(cmd.newDescription, old(found.value.description))
    ensures var found := old(Lookup(uow.productStore.items, ProductKey, cmd.id));
            found.Some? ==>
              old(found.value.variations) <= found.value.variations &&
              (PatchesOf(cmd.patches) == [] ==> found.value.variations == old(found.value.variations))
    ensures var found := old(Lookup(uow.productStore.items, ProductKey, cmd.id));
            found.Some? ==>
              forall i :: |old(found.value.variations)| <= i < |found.value.variations| ==>
                found.value.variations[i] in uow.variationStore.items &&
                found.value.variations[i].id in PatchIds(PatchesOf(cmd.patches))
    ensures var found := old(Lookup(uow.productStore.items, ProductKey, cmd.id));
            found.Some? ==>
              forall w :: w in old(found.value.variations) ==>
                w.isDeleted == old(w.isDeleted) &&
                (w.id !in PatchIds(PatchesOf(cmd.patches)) ==> w.name == old(w.name) && w.price == old(w.price))
  {
    ghost var found := Lookup(uow.productStore.items, ProductKey, cmd.id);
    ghost var missing := FirstMissing(PatchesOf(cmd.patches), StoredIds(uow.variationStore.items));
    r := UpdateProductAt(uow, cmd.id, cmd.newName, cmd.newPrice, cmd.newDescription,
                         PatchesOf(cmd.patches), found, missing);
  }

  /** `update_product_handler` on the fields of its command, told in ghost arguments what it is
      about to find. */
  method UpdateProductAt(uow: UnitOfWork, id: Id, newName: Option<string>, newPrice: Option<int>,
                         newDescription: Option<string>, patches: seq<VariationPatch>,
                         ghost found: Option<Product>, ghost missing: Option<nat>)
    returns (r: Result<Product>)
    requires uow.Valid()
    requires found == Lookup(uow.productStore.items, ProductKey, id)
    requires missing == FirstMissing(patches, StoredIds(uow.variationStore.items))
    modifies uow, uow.users`seen, uow.products`seen, uow.variations`seen, uow.orders`seen, uow.productStore`items,
             Found(uow.productStore.items, ProductKey, id)`name, Found(uow.productStore.items, ProductKey, id)`price,
             Found(uow.productStore.items, ProductKey, id)`description,
             Found(uow.productStore.items, ProductKey, id)`variations,
             Touched(uow.variationStore.items, patches)`name, Touched(uow.variationStore.items, patches)`price
    ensures uow.Valid() && uow.productStore.items == old(uow.productStore.items)
    ensures uow.variationStore.items == old(uow.variationStore.items)
    ensures uow.users.seen == Entered(uow.flavor, old(uow.users.seen))
    ensures uow.orders.seen == Entered(uow.flavor, old(uow.orders.seen))
    ensures uow.products.seen == match found
              case None => EnteredSet(uow.flavor, old(uow.products.seen))
              case Some(p) => EnteredSet(uow.flavor, old(uow.products.seen)) + {p}
    ensures uow.variations.seen == match found
              case None => EnteredSet(uow.flavor, old(uow.variations.seen))
              case Some(_) => EnteredSet(uow.flavor, old(uow.variations.seen)) +
                                Fetched(uow.variationStore.items, PatchesRun(patches, StoredIds(uow.variationStore.items)))
    ensures found.None? ==> r == Err(ProductNotFound(id)) && uow.commits == old(uow.commits)
    ensures found.Some? && missing.Some? ==>
              r == Err(VariationNotFound(patches[missing.value].id)) && uow.commits == old(uow.commits) &&
              found.value.name == old(found.value.name) && found.value.price == old(found.value.price) &&
              found.value.description == old(found.value.description)
    ensures found.Some? && missing.None? ==>
              r == Ok(found.value) && uow.commits == old(uow.commits) + 1 &&
              found.value.name == Overwrite(newName, old(found.value.name)) &&
              found.value.price == Overwrite(newPrice, old(found.value.price)) &&
              found.value.description == Overwrite(newDescription, old(found.value.description))
    ensures found.Some? ==>
              old(found.value.variations) <= found.value.variations &&
                (patches == [] ==> found.value.variations == old(found.value.variations))
    ensures found.Some? ==>
              forall i :: |old(found.value.variations)| <= i < |found.value.variations| ==>
                  found.value.variations[i] in uow.variationStore.items && found.value.variations[i].id in PatchIds(patches)
    ensures found.Some? ==>
              forall w :: w in old(found.value.variations) ==>
                  w.isDeleted == old(w.isDeleted) &&
                  (w.id !in PatchIds(patches) ==> w.name == old(w.name) && w.price == old(w.price))
  {
    uow.Enter();
    assert uow.productStore.items == old(uow.productStore.items) &&
           uow.variationStore.items == old(uow.variationStore.items);
    assert uow.users.seen == Entered(uow.flavor, old(uow.users.seen)) &&
           uow.orders.seen == Entered(uow.flavor, old(uow.orders.seen));
    assert uow.products.seen == EnteredSet(uow.flavor, old(uow.products.seen)) &&
           uow.variations.seen == EnteredSet(uow.flavor, old(uow.variations.seen));
    assert found.Some? ==> found.value.variations == old(found.value.variations);
    assert found.Some? ==>
             forall w :: w in found.value.variations ==>
               w.isDeleted == old(w.isDeleted) && w.name == old(w.name) && w.price == old(w.price);
    r := UpdateProductIn(uow, id, newName, newPrice, newDescription, patches, found, missing);
  }

  /** `update_product_handler` once its scope is entered. */
  method UpdateProductIn(uow: UnitOfWork, id: Id, newName: Option<string>, newPrice: Option<int>,
                         newDescription: Option<string>, patches: seq<VariationPatch>,
                         ghost found: Option<Product>, ghost missing: Option<nat>)
    returns (r: Result<Product>)
    requires uow.Valid()
    requires found == Lookup(uow.productStore.items, ProductKey, id)
    requires missing == FirstMissing(patches, StoredIds(uow.variationStore.items))
    modifies uow, uow.products`seen, uow.variations`seen, uow.productStore`items,
             Found(uow.productStore.items, ProductKey, id)`name, Found(uow.productStore.items, ProductKey, id)`price,
             Found(uow.productStore.items, ProductKey, id)`description,
             Found(uow.productStore.items, ProductKey, id)`variations,
             Touched(uow.variationStore.items, patches)`name, Touched(uow.variationStore.items, patches)`price
    ensures uow.Valid() && uow.productStore.items == old(uow.productStore.items)
    ensures uow.variationStore.items == old(uow.variationStore.items)
    ensures uow.users.seen == old(uow.users.seen)
    ensures uow.orders.seen == old(uow.orders.seen)
    ensures uow.products.seen == match found
              case None => old(uow.products.seen)
              case Some(p) => old(uow.products.seen) + {p}
    ensures uow.variations.seen == match found
              case None => old(uow.variations.seen)
              case Some(_) => old(uow.variations.seen) +
                                Fetched(uow.variationStore.items, PatchesRun(patches, StoredIds(uow.variationStore.items)))
    ensures found.None? ==> r == Err(ProductNotFound(id)) && uow.commits == old(uow.commits)
    ensures found.Some? && missing.Some? ==>
              r == Err(VariationNotFound(patches[missing.value].id)) && uow.commits == old(uow.commits) &&
              found.value.name == old(found.value.name) && found.value.price == old(found.value.price) &&
              found.value.description == old(found.value.description)
    ensures found.Some? && missing.None? ==>
              r == Ok(found.value) && uow.commits == old(uow.commits) + 1 &&
              found.value.name == Overwrite(newName, old(found.value.name)) &&
              found.value.price == Overwrite(newPrice, old(found.value.price)) &&
              found.value.description == Overwrite(newDescription, old(found.value.description))
    ensures found.Some? ==>
              old(found.value.variations) <= found.value.variations &&
                (patches == [] ==> found.value.variations == old(found.value.variations))
    ensures found.Some? ==>
              forall i :: |old(found.value.variations)| <= i < |found.value.variations| ==>
                  found.value.variations[i] in uow.variationStore.items && found.value.variations[i].id in PatchIds(patches)
    ensures found.Some? ==>
              forall w :: w in old(found.value.variations) ==>
                  w.isDeleted == old(w.isDeleted) &&
                  (w.id !in PatchIds(patches) ==> w.name == old(w.name) && w.price == old(w.price))
  {
    var product := uow.products.Get(id);
    assert product == found;
    if product.None? {
      uow.Exit(true);
      return Err(ProductNotFound(id));
    }
    r := ReviseProduct(uow, product.value, newName, newPrice, newDescription, patches, missing);
  }

  /** The rest of `update_product_handler` once the product `p` is fetched: the patches, when
      there are any, then the attributes, the write-back and the commit. */
  method ReviseProduct(uow: UnitOfWork, p: Product, newName: Option<string>, newPrice: Option<int>,
                       newDescription: Option<string>, patches: seq<VariationPatch>, ghost missing: Option<nat>)
    returns (r: Result<Product>)
    requires uow.Valid()
    requires Lookup(uow.productStore.items, ProductKey, p.id) == Some(p)
    requires missing == FirstMissing(patches, StoredIds(uow.variationStore.items))
    modifies uow, uow.variations`seen, uow.productStore`items, p`name, p`price, p`description, p`variations,
             Touched(uow.variationStore.items, patches)`name, Touched(uow.variationStore.items, patches)`price
    ensures uow.Valid() && uow.productStore.items == old(uow.productStore.items)
    ensures uow.products.seen == old(uow.products.seen)
    ensures uow.variations.seen ==
              old(uow.variations.seen) + Fetched(uow.variationStore.items, PatchesRun(patches, StoredIds(uow.variationStore.items)))
    ensures missing.Some? ==>
              r == Err(VariationNotFound(patches[missing.value].id)) && uow.commits == old(uow.commits) &&
              p.name == old(p.name) && p.price == old(p.price) && p.description == old(p.description)
    ensures missing.None? ==>
              r == Ok(p) && uow.commits == old(uow.commits) + 1 &&
              p.name == Overwrite(newName, old(p.name)) && p.price == Overwrite(newPrice, old(p.price)) &&
              p.description == Overwrite(newDescription, old(p.description))
    ensures old(p.variations) <= p.variations &&
              (patches == [] ==> p.variations == old(p.variations))
    ensures forall i :: |old(p.variations)| <= i < |p.variations| ==>
              p.variations[i] in uow.variationStore.items && p.variations[i].id in PatchIds(patches)
    ensures forall w :: w in old(p.variations) ==>
              w.isDeleted == old(w.isDeleted) &&
              (w.id !in PatchIds(patches) ==> w.name == old(w.name) && w.price == old(w.price))
  {
    var err := PatchIfGiven(uow, patches, p);
    assert p.name == old(p.name) && p.price == old(p.price) && p.description == old(p.description);
    assert uow.commits == old(uow.commits) && uow.variationStore.items == old(uow.variationStore.items);
    assert err == if missing.Some? then Some(VariationNotFound(patches[missing.value].id)) else None;
    r := FinishUpdate(uow, p, err, newName, newPrice, newDescription, old(p.variations));
  }

  /** What `update_product_handler` does after the patches: raise the error they gave, leaving
      the attributes alone, or set the attributes, write the product back and commit. */
  method FinishUpdate(uow: UnitOfWork, p: Product, err: Option<Failure>, newName: Option<string>,
                      newPrice: Option<int>, newDescription: Option<string>, ghost listed: seq<Variation>)
    returns (r: Result<Product>)
    requires uow.Valid()
    requires Lookup(uow.productStore.items, ProductKey, p.id) == Some(p)
    modifies uow, uow.productStore`items, p`name, p`price, p`description
    ensures uow.Valid() && uow.productStore.items == old(uow.productStore.items)
    ensures uow.products.seen == old(uow.products.seen) && uow.variations.seen == old(uow.variations.seen)
    ensures uow.variationStore.items == old(uow.variationStore.items) && p.variations == old(p.variations)
    ensures forall w :: w in listed ==>
              w.isDeleted == old(w.isDeleted) && w.name == old(w.name) && w.price == old(w.price)
    ensures err.Some? ==>
              r == Err(err.value) && uow.commits == old(uow.commits) &&
              p.name == old(p.name) && p.price == old(p.price) && p.description == old(p.description)
    ensures err.None? ==>
              r == Ok(p) && uow.commits == old(uow.commits) + 1 &&
              p.name == Overwrite(newName, old(p.name)) && p.price == Overwrite(newPrice, old(p.price)) &&
              p.description == Overwrite(newDescription, old(p.description))
  {
    if err.Some? {
      uow.Exit(true);
      return Err(err.value);
    }
    SaveProduct(uow, p, newName, newPrice, newDescription);
    return Ok(p);
  }

  /** `if cmd.variations: await product_variations(...)`: what `ProductVariations` does, and
      nothing at all without patches. */
  method PatchIfGiven(uow: UnitOfWork, patches: seq<VariationPatch>, p: Product) returns (err: Option<Failure>)
    requires uow.Valid()
    modifies uow.variations`seen, p`variations,
             Touched(uow.variationStore.items, patches)`name, Touched(uow.variationStore.items, patches)`price
    ensures err == match FirstMissing(patches, StoredIds(uow.variationStore.items))
                   case None => None
                   case Some(k) => Some(VariationNotFound(patches[k].id))
    ensures old(p.variations) <= p.variations && (patches == [] ==> p.variations == old(p.variations))
    ensures forall i :: |old(p.variations)| <= i < |p.variations| ==>
              p.variations[i] in uow.variationStore.items && p.variations[i].id in PatchIds(patches)
    ensures forall w :: w in old(p.variations) ==>
              w.isDeleted == old(w.isDeleted) &&
              (w.id !in PatchIds(patches) ==> w.name == old(w.name) && w.price == old(w.price))
    ensures uow.variations.seen ==
              old(uow.variations.seen) + Fetched(uow.variationStore.items, PatchesRun(patches, StoredIds(uow.variationStore.items)))
  {
    if patches != [] {
      err := ProductVariations(uow, patches, p);
    } else {
      err := None;
    }
  }

  /** The end of `update_product_handler` once every patch has applied: the attributes, the
      write-back and the commit. */
  method SaveProduct(uow: UnitOfWork, p: Product, newName: Option<string>, newPrice: Option<int>,
                     newDescription: Option<string>)
    requires uow.Valid()
    requires Lookup(uow.productStore.items, ProductKey, p.id) == Some(p)
    modifies uow, uow.productStore`items, p`name, p`price, p`description
    ensures uow.Valid() && uow.productStore.items == old(uow.productStore.items)
    ensures uow.products.seen == old(uow.products.seen) && uow.variations.seen == old(uow.variations.seen)
    ensures uow.variationStore.items == old(uow.variationStore.items) && p.variations == old(p.variations)
    ensures uow.commits == old(uow.commits) + 1
    ensures p.name == Overwrite(newName, old(p.name)) && p.price == Overwrite(newPrice, old(p.price))
    ensures p.description == Overwrite(newDescription, old(p.description))
  {
    UpdateProductAttributes(p, newName, newPrice, newDescription);
    ReplacedFound(uow.productStore.items, ProductKey, p);
    uow.products.Update(p);
    uow.Commit();
    uow.Exit(false);
  }

  /** `delete_product_handler`: a missing product raises ProductNotFound; otherwise the product
      is deleted through the repository, which forgets it, and the unit of work commits. */
  method DeleteProduct(uow: UnitOfWork, cmd: Command) returns (r: Result<Product>)
    requires cmd.DeleteProduct? && uow.Valid()
    modifies uow, uow.users`seen, uow.products`seen, uow.variations`seen, uow.orders`seen
    ensures uow.Valid() && uow.productStore.items == old(uow.productStore.items)
    ensures uow.userStore.items == old(uow.userStore.items) && uow.orderStore.items == old(uow.orderStore.items)
    ensures uow.variationStore.items == old(uow.variationStore.items)
    ensures uow.users.seen == Entered(uow.flavor, old(uow.users.seen))
    ensures uow.variations.seen == EnteredSet(uow.flavor, old(uow.variations.seen))
    ensures uow.orders.seen == Entered(uow.flavor, old(uow.orders.seen))
    ensures uow.products.seen == match old(Lookup(uow.productStore.items, ProductKey, cmd.id))
              case None => EnteredSet(uow.flavor, old(uow.products.seen))
              case Some(p) => EnteredSet(uow.flavor, old(uow.products.seen)) - {p}
    ensures old(Lookup(uow.productStore.items, ProductKey, cmd.id)).None? ==>
              r == Err(ProductNotFound(cmd.id)) && uow.commits == old(uow.commits)
    ensures var found := old(Lookup(uow.productStore.items, ProductKey, cmd.id));
            found.Some? ==>
              r == Ok(found.value) && found.value !in uow.products.seen && uow.commits == old(uow.commits) + 1
  {
    ghost var found := Lookup(uow.productStore.items, ProductKey, cmd.id);
    r := DeleteProductAt(uow, cmd.id, found);
  }

  /** `delete_product_handler` on the id of its command. */
  method DeleteProductAt(uow: UnitOfWork, id: Id, ghost found: Option<Product>) returns (r: Result<Product>)
    requires uow.Valid()
    requires found == Lookup(uow.productStore.items, ProductKey, id)
    modifies uow, uow.users`seen, uow.products`seen, uow.variations`seen, uow.orders`seen
    ensures uow.Valid() && uow.productStore.items == old(uow.productStore.items)
    ensures uow.userStore.items == old(uow.userStore.items) && uow.orderStore.items == old(uow.orderStore.items)
    ensures uow.variationStore.items == old(uow.variationStore.items)
    ensures uow.users.seen == Entered(uow.flavor, old(uow.users.seen))
    ensures uow.variations.seen == EnteredSet(uow.flavor, old(uow.variations.seen))
    ensures uow.orders.seen == Entered(uow.flavor, old(uow.orders.seen))
    ensures uow.products.seen == match found
              case None => EnteredSet(uow.flavor, old(uow.products.seen))
              case Some(p) => EnteredSet(uow.flavor, old(uow.products.seen)) - {p}
    ensures found.None? ==> r == Err(ProductNotFound(id)) && uow.commits == old(uow.commits)
    ensures found.Some? ==> r == Ok(found.value) && found.value !in uow.products.seen &&
                            uow.commits == old(uow.commits) + 1
  {
    uow.Enter();
    var product := uow.products.Get(id);
    assert product == found;
    if product.None? {
      uow.Exit(true);
      return Err(ProductNotFound(id));
    }
    var err := uow.products.Delete(product.value);
    assert err.None?;
    uow.Commit();
    uow.Exit(false);
    return Ok(product.value);
  }
}
