# Order backend core: message bus, unit of work, repositories, aggregates and handlers

A Dafny model of the service layer of an order-taking backend (a café ordering API written in
Python). Within one request, `MessageBus.handle` takes a command and runs it through the one
handler that `COMMAND_HANDLERS` registers for its class. The handler works through a unit of work
over four repositories: users, products, variations and orders. The aggregates (`User`,
`Product`, `Order`) queue domain events in a private `_events` list. After every handler call
that returns, the bus drains those queues with `collect_new_events`. It then processes the event
queue first in, first out, running every handler `EVENT_HANDLERS` lists for an event's class and
logging and skipping the ones that raise.

The model is organised by source module:

- `messages.dfy` (module `Messages`): enums, order lines, events, commands and the exceptions, as
  datatypes. Prices are integer cents.
- `seqs.dfy` (module `Seqs`): first-match search by id, as the in-memory stores and
  `get_variation_by_id` perform it, and set enumeration.
- `models.dfy` (module `Models`): the aggregates as classes with their event queues, the
  soft-deleted variation list of `Product`, and the `Order.change_status` state machine.
- `repository.dfy` (module `Repository`): the list-backed store of the test fakes, and one
  repository class per aggregate keeping its `seen` set.
- `unit_of_work.dfy` (module `UnitOfWork`): scope entry and exit, `commit`, and
  `collect_new_events` as drain loops. One class covers both implementations: the flavour `Fake`
  is FakeUnitOfWork and the flavour `SqlAlchemy` is SqlAlchemyUnitOfWork.
- `handlers.dfy` (module `Handlers`): the command handlers that make decisions. These price and
  create orders, cancel them, change their status, create, rename and delete variations, and
  update and delete products.
- `registry.dfy` (module `Registry`): `COMMAND_HANDLERS` and `EVENT_HANDLERS`.
- `messagebus.dfy` (module `Bus`): the bus as an imperative class, proved against a functional
  definition of one `handle` call.
- `scenarios.dfy` (module `Scenarios`): the unit tests of `tests/unit/test_handler.py` and
  `tests/unit/test_user.py`, restated as verified methods. Each builds the test's setup, calls
  the handler, and its postcondition states what the model gives on that setup.

The bus sees the handlers only through what each call does: it returns a value and leaves events
to collect, or it raises. `reply` describes the command handler and `replies(k)` describes the
k-th event-handler call. The clock (`datetime.utcnow()`) and the uuid generator are parameters:
`now`, `orderId` and `variationId`.

## Model

| member | source | states |
|---|---|---|
| Seqs.FirstIndex | tests/unit/test_handler.py:65-70 | the index `enumerate` stops at: the first element with the id, none before it has it, and None exactly when no element has it |
| Seqs.Lookup | tests/unit/test_handler.py:49-53 | `_get` returns an element of the list with that id, and None exactly when no element has it |
| Seqs.Enumerate | api/service_layer/unit_of_work.py:35 | iterating a `seen` set visits every element exactly once, in some order |
| Models.User.AppendEvent | api/domain/models.py:35-36 | the event is appended at the end of the queue |
| Models.User.PopEvents | api/domain/models.py:38-41 | returns the queued events in order and leaves the queue empty |
| Models.Product.AppendEvent | api/domain/models.py:82-83 | the event is appended at the end of the queue |
| Models.Product.PopEvents | api/domain/models.py:85-88 | returns the queued events in order and leaves the queue empty |
| Models.Product.AddVariation | api/domain/models.py:90-91 | the variation is appended at the end of the product's list |
| Models.ActiveFilters | api/domain/models.py:100-101 | `get_active_variations` keeps exactly the variations with `is_deleted == 0`, and nothing outside the list |
| Models.ActiveAppend | api/domain/models.py:100-101 | the filter distributes over concatenation, so it keeps the original relative order |
| Models.Product.GetVariationById | api/domain/models.py:103-108 | the first active variation with the id, or None; a result is in the list, active and has that id |
| Models.Product.RemoveVariation | api/domain/models.py:93-98 | soft-deletes exactly that first active variation; when there is none, raises ValueError("Variation not found.") and changes no `is_deleted` |
| Models.Order.AppendEvent | api/domain/models.py:151-152 | the event is appended at the end of the queue |
| Models.Order.PopEvents | api/domain/models.py:154-157 | returns the queued events in order and leaves the queue empty |
| Models.TransitionError | api/domain/models.py:160-194 | the refusal, in the code's order of checks, is always a ValueError, and a move to the current status is refused with "Cannot change to the same status." |
| Models.TransitionAllowed | api/domain/models.py:159-196 | a move is accepted iff the statuses differ, the order is not Cancelled, and Preparation is reached only from Waiting, Ready only from Preparation, Delivered only from Ready, Cancelled only from Waiting or Preparation; Waiting is reachable from every status except Cancelled |
| Models.Order.ChangeStatus | api/domain/models.py:159-207 | on refusal neither status nor queue changes; on success the status is the target and exactly one OrderStatusChanged (id, user, total, location, new status, items) is appended |
| Repository.Replaced | tests/unit/test_handler.py:97-102 | `_update` replaces the first same-id element at its index and keeps every other element and the length; with no same-id element the list is unchanged |
| Repository.ReplacedFound | tests/unit/test_handler.py:97-102 | writing back the element a lookup just returned leaves the list as it was |
| Repository.FakeStore.Add | tests/unit/test_handler.py:46-47 | `_add` appends to the end of the list |
| Repository.FakeStore.Get | tests/unit/test_handler.py:81-85 | `_get` returns the first element with the id, or None |
| Repository.FakeStore.Update | tests/unit/test_handler.py:129-134 | returns True iff some element has the id; the list becomes `Replaced` |
| Repository.FakeStore.Delete | tests/unit/test_handler.py:58-63 | removes exactly the first element with the id and returns True; otherwise returns False with the list unchanged |
| Repository.Remember | api/domain/models.py:143-149 | `seen.add` under id equality: an entry with that id stays as it is, otherwise the new one joins; no other entry changes |
| Repository.PageOrEmpty | api/adapters/repository.py:79-82 | `get_all` returns [] iff `_get_all` yields None or an empty list, and otherwise that list |
| Repository.UserRepository.Add | api/adapters/repository.py:16-18 | `_add` appends the user, then the user is remembered in `seen` |
| Repository.UserRepository.Get | api/adapters/repository.py:20-24 | returns `_get`'s answer unchanged, and only a found user joins `seen` |
| Repository.UserRepository.Update | api/adapters/repository.py:30-31 | only the store changes, as `_update` says; `seen` does not |
| Repository.UserRepository.Delete | api/adapters/repository.py:26-28 | the user leaves `seen`; `seen.remove` raises KeyError when the user was not in it; the store keeps the user |
| Repository.ProductRepository.Add | api/adapters/repository.py:59-61 | `_add` appends the product, then it joins `seen` |
| Repository.ProductRepository.Get | api/adapters/repository.py:63-67 | returns `_get`'s answer unchanged, and only a found product joins `seen` |
| Repository.ProductRepository.Update | api/adapters/repository.py:73-74 | only the store changes; `seen` does not |
| Repository.ProductRepository.Delete | api/adapters/repository.py:69-71 | the product leaves `seen`, with KeyError when it was not in it; the store keeps it |
| Repository.ProductRepository.GetAll | api/adapters/repository.py:76-82 | the page `_get_all` returned, or [] for None or an empty page; `seen` does not change |
| Repository.VariationRepository.Add | api/adapters/repository.py:111-113 | `_add` appends the variation, then it joins `seen` |
| Repository.VariationRepository.Get | api/adapters/repository.py:115-119 | returns `_get`'s answer unchanged, and only a found variation joins `seen` |
| Repository.VariationRepository.Update | api/adapters/repository.py:121-122 | only the store changes; `seen` does not |
| Repository.VariationRepository.Delete | api/adapters/repository.py:124-126 | the variation leaves `seen`, with KeyError when it was not in it |
| Repository.DictPop | api/adapters/repository.py:154-155 | `dict.pop` without a default succeeds iff the key is present, removing exactly it, and raises KeyError(key) otherwise |
| Repository.AddRaisesAsWritten | api/adapters/repository.py:153-155 | as written, building the OrderCreated payload raises KeyError("is_deleted") for every Order |
| Repository.CreatedPayloadFitsEvent | api/adapters/repository.py:153-156 | with the missing key skipped, the fields left are exactly the parameters of OrderCreated |
| Repository.CreatedEvent | api/adapters/repository.py:153-156 | the OrderCreated event carries the order's id, status, user, total, location, lines and both timestamps |
| Repository.OrderRepository.Add | api/adapters/repository.py:150-157 | appends the order to the store, queues exactly one OrderCreated at the end of its queue, then remembers it in `seen` |
| Repository.OrderRepository.Get | api/adapters/repository.py:159-163 | returns `_get`'s answer unchanged, and only a found order joins `seen` |
| Repository.OrderRepository.GetAll | api/adapters/repository.py:165-173 | the page or []; exactly the ids of the returned orders join `seen`, entries already seen are kept, and a newly seen id maps to a returned order with that id |
| Repository.OrderRepository.Update | api/adapters/repository.py:175-176 | only the store changes; `seen` does not |
| Repository.OrderRepository.Delete | api/adapters/repository.py:178-180 | the order leaves `seen`, with KeyError when it was not in it |
| UnitOfWork.DrainUser | api/service_layer/unit_of_work.py:36-37 | `while obj._events: yield obj._events.pop(0)` yields the queue front first and leaves it empty |
| UnitOfWork.DrainOrder | api/service_layer/unit_of_work.py:36-37 | the same, for an order |
| UnitOfWork.DrainProduct | api/service_layer/unit_of_work.py:36-37 | the same, for a product |
| UnitOfWork.DrainUsers | api/service_layer/unit_of_work.py:35-37 | the queues of the users, in visiting order, one after the other; each is left empty |
| UnitOfWork.DrainOrders | api/service_layer/unit_of_work.py:35-37 | the same, for orders |
| UnitOfWork.DrainProducts | api/service_layer/unit_of_work.py:35-37 | the same, for products |
| UnitOfWork.UnitOfWork.constructor | tests/unit/test_handler.py:182-187 | four separate list-backed stores holding the given rows, empty `seen` sets, not committed |
| UnitOfWork.UnitOfWork.Enter | api/service_layer/unit_of_work.py:76-86 | the fake changes nothing; SqlAlchemy opens a session and starts with empty `seen` sets |
| UnitOfWork.UnitOfWork.Exit | api/service_layer/unit_of_work.py:99-111 | SqlAlchemy rolls back exactly when the scope raised, then closes the session; the fake does nothing; neither commits |
| UnitOfWork.UnitOfWork.Commit | api/service_layer/unit_of_work.py:113-115 | the fake sets `committed`; SqlAlchemy commits the session and drains no event |
| UnitOfWork.UnitOfWork.CollectNewEvents | api/service_layer/unit_of_work.py:32-37 | visits users, then orders, then products, each `seen` set once per element, never variations; yields each queued event exactly once, front first, and leaves every visited queue empty |
| UnitOfWork.UnitOfWork.CollectDrained | api/service_layer/unit_of_work.py:32-37 | when every visited queue is empty, nothing is yielded |
| UnitOfWork.UnitOfWork.CollectTwice | api/service_layer/unit_of_work.py:32-37 | a second full iteration right after the first yields nothing |
| Handlers.UnitPriceOk | api/service_layer/handlers.py:32-43 | an item is priced iff its product, and its variation when one is given, are found; otherwise ProductNotFound, or VariationNotFound, with that id |
| Handlers.PriceItemsLines | api/service_layer/handlers.py:31-55 | pricing succeeds iff every item can be priced, and then gives one line per item, in order, with the order's id and the item's unit price |
| Handlers.PriceItemsFirstFailure | api/service_layer/handlers.py:31-42 | a failure is the failure of the first item that cannot be priced |
| Handlers.PriceItemsFailFast | api/service_layer/handlers.py:31-34 | once a prefix of the items fails, the whole list fails the same way |
| Handlers.ItemsCostConcat | api/service_layer/handlers.py:29-45 | `total_cost` of two lists of lines together is the sum of their totals |
| Handlers.PriceItem | api/service_layer/handlers.py:32-43 | one pass of the item loop computes exactly `UnitPrice` from the stores |
| Handlers.PriceOrder | api/service_layer/handlers.py:28-55 | the loop yields the lines of `PriceItems` or its first failure, and the total is the sum of quantity times unit price |
| Handlers.PlaceOrder | api/service_layer/handlers.py:56-63 | a fresh Waiting order with the lines and total is appended to the store with exactly one OrderCreated queued, it is remembered in the orders' `seen` (where `collect_new_events` will find it), the other stores do not change, and one commit happens |
| Handlers.CreateOrder | api/service_layer/handlers.py:24-64 | an unpriceable item raises its failure with nothing added or committed and no order seen; otherwise the new Waiting order with the priced lines and their total is added, queued its OrderCreated, remembered in the orders' `seen` after the scope's entry, committed and returned; the user, product and variation stores and the users' `seen` are as the scope's entry left them |
| Handlers.CancelOutcome | api/service_layer/handlers.py:146-168 | success iff the order exists, belongs to the asker and is Waiting or Preparation; OrderNotFound iff there is no such order; any answer that does not raise is given only to the owner |
| Handlers.CancelRefusals | api/service_layer/handlers.py:150-157 | another user's order raises Unauthorized; Cancelled and Delivered get (False, reason); Ready lets `change_status`'s ValueError escape unwrapped |
| Handlers.CancelOrder | api/service_layer/handlers.py:143-168 | the answer is `CancelOutcome`; only a success cancels the order, queues one OrderStatusChanged and commits; every other outcome leaves the order and the commit count alone; a found order is remembered in the orders' `seen`, the four stores do not change, and the other `seen` sets are as the scope's entry left them |
| Handlers.CancelFound | api/service_layer/handlers.py:150-168 | the same, once the order is found |
| Handlers.DescribeItems | api/service_layer/handlers.py:83-93 | the loop completes iff every line's product and variation are found |
| Handlers.StatusUpdate | api/service_layer/handlers.py:82-96 | succeeds iff the lines can be described and the move is allowed; an undescribable line raises AttributeError first; a refused move is wrapped as InvalidOrderUpdate with `change_status`'s message |
| Handlers.UpdateOrderStatus | api/service_layer/handlers.py:75-101 | a missing order raises OrderNotFound; otherwise the answer is `StatusUpdate`, and the order moves, queues one OrderStatusChanged and is committed exactly when it succeeds; a found order is remembered in the orders' `seen`, and the four stores do not change |
| Handlers.UpdateFound | api/service_layer/handlers.py:82-97 | the same, once the order is found |
| Handlers.FirstClash | api/service_layer/handlers.py:314-321 | the first variation bearing the name (with another id, when one is excluded), and None exactly when there is none |
| Handlers.FindClash | api/service_layer/handlers.py:314-321 | the name clash loop finds exactly `FirstClash` |
| Handlers.CreateVariation | api/service_layer/handlers.py:306-325 | a missing product raises ProductNotFound; a name already borne by any variation of the product, deleted ones included, raises InvalidVariationUpdate with the first clash's id; otherwise a fresh variation is appended to the product and committed; on every path the user, variation and order stores do not change, a found product joins the products' `seen`, and the other `seen` sets are as the scope's entry left them |
| Handlers.CreateVariationAt | api/service_layer/handlers.py:309-325 | the same on the command's fields, inside the scope, the unchanged stores and the `seen` effects included |
| Handlers.CreateVariationIn | api/service_layer/handlers.py:311-325 | the same, once the scope is entered: only the found product joins a `seen` set, and the other stores do not change |
| Handlers.AddNewVariation | api/service_layer/handlers.py:314-325 | with the product found: refused on a clash with nothing changed; otherwise the variation is appended and committed |
| Handlers.Target | api/service_layer/handlers.py:348-350 | the variation found is active, listed on the product and has the id |
| Handlers.TargetMissing | api/service_layer/handlers.py:348-350 | no variation is found iff no active variation of the product has the id |
| Handlers.RenameClash | api/service_layer/handlers.py:352-357 | a clash is an active variation of the product, with another id, already bearing the requested name |
| Handlers.RenameClashMissing | api/service_layer/handlers.py:352-357 | there is no clash iff no name is requested or no other active variation bears it |
| Handlers.UpdateVariation | api/service_layer/handlers.py:341-366 | ProductNotFound, VariationNotFound and InvalidVariationUpdate in that order, each without a commit and leaving the product's list, every listed variation and the variation store as they were; otherwise name and price are replaced only by truthy command values, the variation is appended to the product again, written back and committed; every other listed variation keeps its name, price and deletion flag; the products' `seen` gains the found product, and the users', variations' and orders' `seen` are what `__aenter__` left |
| Handlers.UpdateVariationAt | api/service_layer/handlers.py:344-366 | the same on the command's fields, inside the scope, with the other listed variations and, on a refusal, the variation store unchanged, and the four `seen` sets as stated for `UpdateVariation` |
| Handlers.UpdateVariationIn | api/service_layer/handlers.py:345-366 | the same, once the scope is entered, other listed variations and a refused variation store included; only the products' `seen` changes, by the found product |
| Handlers.ReviseVariation | api/service_layer/handlers.py:348-366 | the same, once the product is found: every variation of the product other than the target keeps name, price and deletion flag on every path |
| Handlers.CheckVariation | api/service_layer/handlers.py:348-357 | VariationNotFound when no active variation has the id, else InvalidVariationUpdate naming the first other active variation that already bears the new name, else the active variation with the id; nothing changes |
| Handlers.SaveVariation | api/service_layer/handlers.py:359-366 | truthy values replace name and price, the variation is appended to the product, written back by id, and one commit happens |
| Handlers.DeleteVariation | api/service_layer/handlers.py:328-338 | a missing product raises ProductNotFound; a missing active variation lets ValueError escape without a commit and with no variation's deletion flag changed; otherwise exactly that variation is soft-deleted, every other listed variation keeps its flag, and the product is committed and returned; on every path the found product's list of variations stays as it was (soft deletion leaves the variation listed); the products' `seen` gains the found product, and the users', variations' and orders' `seen` are what `__aenter__` left |
| Handlers.DeleteVariationAt | api/service_layer/handlers.py:331-338 | the same on the command's fields, inside the scope: only the target's deletion flag changes, the found product's list stays as it was, and the four `seen` sets are as stated for `DeleteVariation` |
| Handlers.DeleteVariationIn | api/service_layer/handlers.py:332-338 | the same, once the scope is entered: only the target's deletion flag changes, the found product's list stays as it was, and only the products' `seen` changes, by the found product |
| Handlers.RemoveFromProduct | api/service_layer/handlers.py:335-338 | with no active variation of that id, ValueError and no change of any deletion flag or commit; otherwise exactly that variation is soft-deleted, the product written back and committed, and every other listed variation keeps its flag |
| Handlers.CommitProduct | api/service_layer/handlers.py:336-337 | writing back a product stored under its id leaves the product list as it was, and one commit happens |
| Handlers.IsListed | api/service_layer/handlers.py:237 | `var not in product.get_active_variations()` compares field by field |
| Handlers.ApplyPatch | api/service_layer/handlers.py:237-242 | a variation not listed among the active ones is appended unchanged; a listed one takes each non-None field of the patch, and the list stays |
| Handlers.FirstMissing | api/service_layer/handlers.py:233-236 | the first patch whose id the store does not hold, and None exactly when the store holds every id |
| Handlers.PatchStep | api/service_layer/handlers.py:234-242 | found iff the store holds the id; the product's list stays or grows by exactly the found variation; the repository's `seen` gains the variation fetched, if any |
| Handlers.PatchAll | api/service_layer/handlers.py:233-242 | stops exactly at the first missing id; the list only grows at its end, and only by stored variations the applied patches name; the repository's `seen` gains exactly the variations fetched for the applied patches |
| Handlers.FetchedTouched | api/service_layer/handlers.py:232-242 | every variation `uow.variations.get` fetches for the patches is one of the store's that some patch names (`get` adds what it finds to `seen`, api/adapters/repository.py:115-119) |
| Handlers.ProductVariations | api/service_layer/handlers.py:232-242 | VariationNotFound for the first missing id, raised after the earlier patches took effect; the list only grows at its end, by stored variations some patch names; listed variations no patch names keep name and price, and no deletion flag changes; the variations' `seen` gains exactly what was fetched for the patches run before the first missing id |
| Handlers.UpdateProductAttributes | api/service_layer/handlers.py:245-250 | every non-None attribute overwrites the product's, and a None one leaves it |
| Handlers.UpdateProduct | api/service_layer/handlers.py:204-229 | a missing product raises ProductNotFound; a missing patched variation raises VariationNotFound before any attribute is set and without a commit; otherwise the attributes are overwritten, the product written back and committed; on both paths after the lookup the product's list only grows at its end, by stored variations some patch names (not at all without patches), and listed variations no patch names keep name, price and deletion flag; the products' `seen` gains the found product, the variations' `seen` gains what was fetched for the patches run, and the users' and orders' `seen` are what `__aenter__` left |
| Handlers.UpdateProductAt | api/service_layer/handlers.py:207-229 | the same on the command's fields, inside the scope, the growth of the variation list and the four `seen` sets included; the variation store is not changed |
| Handlers.UpdateProductIn | api/service_layer/handlers.py:208-229 | the same, once the scope is entered, the growth of the variation list included; the users' and orders' `seen` do not change |
| Handlers.ReviseProduct | api/service_layer/handlers.py:212-229 | the same, once the product is found; patches run only when there are any, and what `product_variations` does to the list and to the variations' `seen` carries over; the products' `seen` does not change |
| Handlers.PatchIfGiven | api/service_layer/handlers.py:213-214 | with patches, exactly what `product_variations` does: the first missing id as VariationNotFound, the list grown at its end by stored variations some patch names, unnamed variations untouched and the variations' `seen` grown by what `get` found; with no patches, no error and an unchanged list |
| Handlers.FinishUpdate | api/service_layer/handlers.py:214-229 | an error from the patches is raised with the attributes, the variation list and every listed variation left alone and no commit; otherwise the attributes are overwritten, the product list keeps its shape and one commit happens; no `seen` set and no variation changes |
| Handlers.SaveProduct | api/service_layer/handlers.py:216-229 | the attributes are overwritten, the product is written back in place and one commit happens |
| Handlers.DeleteProduct | api/service_layer/handlers.py:253-262 | a missing product raises ProductNotFound without a commit; otherwise the product leaves `seen`, one commit happens and the product is returned; no store changes, the products' `seen` is what the scope's entry left minus the product, and the other `seen` sets are as the entry left them |
| Handlers.DeleteProductAt | api/service_layer/handlers.py:256-262 | the same on the command's id, the unchanged stores and the `seen` effects included |
| Registry.CommandHandler | api/service_layer/handlers.py:438-460 | every command class except CustomizeProduct has a handler |
| Registry.CommandHandlerTyped | api/service_layer/handlers.py:438-460 | a registered command goes to a handler declared for its class, and it is the only registered handler for it |
| Registry.EventHandlers | api/service_layer/handlers.py:430-436 | exactly OrderStatusChanged and OrderCreated have handler lists |
| Registry.EventHandlersTyped | api/service_layer/handlers.py:430-436 | a listed handler is one declared for the event's class, each is listed once, and every handler declared for the class is listed |
| Bus.MessageBus.HandleCommand | api/service_layer/messagebus.py:58-67 | an unregistered class raises KeyError and a raising handler's exception propagates, neither collecting; a returning handler's value is returned and the collected events join the end of the queue |
| Bus.MessageBus.HandleEvent | api/service_layer/messagebus.py:48-56 | an unregistered class raises KeyError with nothing changed; otherwise every listed handler is called in list order, whatever the others do, as `Dispatch` says |
| Bus.MessageBus.Handle | api/service_layer/messagebus.py:30-46 | the result and the final queue, call count and call trace are exactly those of `Handled` |
| Bus.DispatchRunsAll | api/service_layer/messagebus.py:49-56 | each handler of the list runs exactly once, in list order, even after one raises; the queue grows only at its end, by what the collections after returning calls yield |
| Bus.RaisedCollectsNothing | api/service_layer/messagebus.py:50-56 | handler calls that all raise add nothing to the queue |
| Bus.ProcessExtends | api/service_layer/messagebus.py:40-43 | the event loop only appends to the trace of calls |
| Bus.ProcessHead | api/service_layer/messagebus.py:40-53 | processing the first event runs its handlers and puts their collections behind everything already queued |
| Bus.ProcessFifo | api/service_layer/messagebus.py:40-49 | first in, first out: the handlers of the queued events run, event by event and in list order, before those of any event queued behind them |
| Bus.HandleKeepsResult | api/service_layer/messagebus.py:33-46 | a returned result is the command handler's own value, and exists only for a registered command whose handler returned |
| Bus.CommandFailureStops | api/service_layer/messagebus.py:31-39 | a non-command, an unregistered command or a raising handler makes `handle` raise that failure before any event handler runs |
| Bus.UnregisteredEventAborts | api/service_layer/messagebus.py:40-50 | an event class with no registry entry aborts the loop with KeyError, and nothing behind it runs |
| Scenarios.UserPopEvents | tests/unit/test_user.py:26-40 | one appended event is the whole queue; popping returns it and leaves the queue empty |
| Scenarios.PreparationToDelivered | tests/e2e/test_api_e2e.py:259-265 | Preparation to Delivered is refused, and status and queue stay |
| Scenarios.CreateOrderPriced | tests/unit/test_handler.py:226-272 | what the model gives on the test's setup (the test itself checks only that an Order comes back): with the corrected `add`, an Order in Waiting costing 40.0 is returned with its OrderCreated queued; the test's "HOME_DELIVERY" is not a ConsumeLocation, so the scenario takes TakeAway, on which the price does not depend |
| Scenarios.CreateOrderUnknownProduct | tests/unit/test_handler.py:274-295 | an unknown product raises ProductNotFound |
| Scenarios.UpdateMissingOrder | tests/unit/test_handler.py:318-327 | the test expects some exception; on its setup the model raises OrderNotFound |
| Scenarios.CancelCreatedOrder | tests/unit/test_handler.py:329-419 | the owner's cancellation returns (True, "Order cancelled successfully"); anyone else's raises Unauthorized |
| Scenarios.CreateTestOrder | tests/unit/test_handler.py:329-419 | on the cancellation tests' setup, `create_order_handler` gives the order o1 of user u1 in Waiting, and it is the only stored order |
| Scenarios.DeleteKnownProduct | tests/unit/test_handler.py:422-439 | deleting a stored product returns that product |
| Scenarios.DeleteUnknownProduct | tests/unit/test_handler.py:442-450 | deleting an unknown product raises ProductNotFound |
| Scenarios.UpdateKnownProduct | tests/unit/test_handler.py:453-478 | the returned product carries the new description and price |
| Scenarios.UpdateUnknownProduct | tests/unit/test_handler.py:481-493 | updating an unknown product raises ProductNotFound |
| Scenarios.FailingEventHandlerIsolated | api/service_layer/messagebus.py:48-56 | when the first handler of OrderStatusChanged raises, the second still runs, and `handle` returns the command's result |
| Scenarios.UnregisteredEventFailsHandle | api/service_layer/messagebus.py:40-50 | an event no handler is registered for makes `handle` raise KeyError |

## Left out

- SQL persistence, the ORM mappings and `health_check`'s database probe are out of scope. The SqlAlchemy flavour reads and writes the same list-backed stores as the fake. `SqlAlchemyUnitOfWork.__aenter__` builds fresh repositories; the model keeps one repository per kind and empties its `seen` sets instead, since nothing holds on to the replaced repositories. Because the stores are shared, a SqlAlchemy rollback is only counted (`sessionRollbacks`): changes made before a raise stay in the stores. The one path where this shows is `update_product_handler`, whose earlier `product_variations` patches stay when VariationNotFound is raised; on a database the rollback would undo them, so the UpdateProduct rows describe the fake's lists, not the database.
- UnitOfWork.UnitOfWork.Exit: does not model the HTTPException that a DatabaseError is turned into, because the model raises no database errors.
- The Redis publish calls of `update_order_status_handler`, `cancel_order_handler` and `update_product_handler`, including the discount notice, are external I/O. The e-mail notifications are I/O too.
- The bodies of the event handlers (`handle_order_change_event`, `handle_push_notification`, `handle_order_created_event`) are left out; the bus takes what each call does as the parameter `replies`.
- The command handlers without decisions are not modelled: `get_orders_handler`, `get_order_handler`, `show_product_handler` (registered nowhere), `create_product_handler`, `get_product_handler`, `get_all_products_handler`, `get_orders_for_customer_handler`, `get_catalog_handler`, `create_user_handler`, `authenticate_user_handler`, `get_user_by_email_handler`, `healthcheck_handler` and `notify_order_sale_handler`. They only fetch, hash passwords or publish.
- `bootstrap.inject_dependencies` is replaced by explicit parameters; asynchrony is modelled as sequential calls.
- The event loop takes a `fuel` bound on the number of events processed, since nothing in the code bounds how many events handlers keep producing; running out of fuel is its own outcome, `OutOfFuel`.
- The bus's "was not an Event or Command" branch for a non-event in the event queue is left out: the event queue holds events by typing.
- The order in which `collect_new_events` visits the aggregates of one `seen` set is left unspecified; the model records it and proves every property for every order.
- The order-item repository is left out. No handler uses it, and its entity is an unhashable dataclass that cannot be put in a `seen` set.
- FakeUsersRepository indexes users as dicts (`user["id"]`), which fails on User objects. The users store is modelled id-based like the others.
- Fake `_get_all` takes no arguments, but the abstract `get_all` passes three. `get_all` takes `_get_all`'s answer as a parameter instead.
- User and Order compare and hash by id, so their `seen` sets are maps from id. Product and Variation have dataclass equality with an id hash; their `seen` sets are sets of objects, and identity stands in for equality there.
- Handlers.IsListed: compares id, name, price, product id and deletion flag, and leaves out the two timestamps dataclass equality also compares, because the model has no timestamps on variations.
- Handlers.ProductVariations: the name and price each patch gives a variation already listed are stated per patch, by `ApplyPatch`. Across the loop the model states only how the list grows and that unpatched variations stay, because one id may be patched several times and a variation stops being unlisted once appended.
- Handlers.UpdateProduct: inherits that gap; the fields the patches give listed variations are not stated.
- Handlers.UpdateProductAt: the same gap as `UpdateProduct`.
- Handlers.UpdateProductIn: the same gap as `UpdateProduct`.
- Handlers.ReviseProduct: the same gap as `UpdateProduct`.
- Handlers.CreateOrder: the products' and variations' `seen` sets after pricing are not stated; pricing only fetches from them.
- Handlers.UpdateOrderStatus: the products' and variations' `seen` sets after the item loop are not stated; the loop only fetches from them.
- Repository.OrderRepository.Add: models the corrected payload of the Findings row, which pops "is_deleted" only when present. As written, the `pop` raises KeyError after `_add`: the order is stored, no event is queued and `seen` is unchanged. `Handlers.PlaceOrder`, `Handlers.CreateOrder` and `Scenarios.CreateOrderPriced` build on the corrected `add`.
- Prices and totals are integer cents rather than floats. `datetime.utcnow()` readings are opaque integers passed in as `now`.
- The HTTP layer, JWT authentication, pydantic validation and HTTP status codes are out of scope.

## Findings

| source | as written | input that shows it | evidently intended | confidence | as-written member | corrected member |
|---|---|---|---|---|---|---|
| api/adapters/repository.py:155 | `order_event.pop("is_deleted")` without a default, on `asdict(order)` | any Order: the dataclass declares no `is_deleted` field, so `add` raises KeyError before queuing OrderCreated | pop the key only when present, so the remaining fields are exactly the parameters of OrderCreated | not executed | Repository.AddRaisesAsWritten | Repository.CreatedPayloadFitsEvent |
