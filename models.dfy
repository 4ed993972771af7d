/** The aggregates of api/domain/models.py. Each aggregate owns a private queue of
    not-yet-published events (`_events`), appended to by its business methods and
    drained by the unit of work. */
module Models {
  import opened Messages
  import opened Seqs

  class User {
    const id: Id
    const email: string
    const role: UserRole
    var events: seq<Event>

    constructor (id: Id, email: string, role: UserRole)
      ensures this.id == id && this.email == email && this.role == role
      ensures events == []
    {
      this.id, this.email, this.role := id, email, role;
      events := [];
    }

    method AppendEvent(e: Event)
      modifies this`events
      ensures events == old(events) + [e]
    {
      events := events + [e];
    }

    /** Hands back the queued events, in order, and leaves the queue empty. */
    method PopEvents() returns (popped: seq<Event>)
      modifies this`events
      ensures popped == old(events) && events == []
    {
      popped := events;
      events := [];
    }
  }

  class Variation {
    const id: Id
    var name: string
    var price: int
    const productId: Id
    /** 0 while the variation is active, 1 once it is soft-deleted. */
    var isDeleted: int

    constructor (id: Id, name: string, price: int, productId: Id)
      ensures this.id == id && this.name == name && this.price == price
      ensures this.productId == productId && isDeleted == 0
    {
      this.id, this.name, this.price, this.productId := id, name, price, productId;
      isDeleted := 0;
    }
  }

  /** The active (not soft-deleted) variations of `vs`, in their original order. */
  function Active(vs: seq<Variation>): seq<Variation>
    reads vs
  {
    if vs == [] then []
    else Active(vs[..|vs| - 1]) + (if vs[|vs| - 1].isDeleted == 0 then [vs[|vs| - 1]] else [])
  }

  /** `Active` keeps exactly the variations of `vs` that are not deleted. */
  lemma {:induction false} ActiveFilters(vs: seq<Variation>)
    ensures forall w :: w in Active(vs) ==> w in vs && w.isDeleted == 0
    ensures forall i :: 0 <= i < |Active(vs)| ==> Active(vs)[i] in vs
    ensures forall w :: w in vs && w.isDeleted == 0 ==> w in Active(vs)
    ensures |Active(vs)| <= |vs|
  {
    if vs != [] {
      ActiveFilters(vs[..|vs| - 1]);
      assert vs == vs[..|vs| - 1] + [vs[|vs| - 1]];
    }
  }

  /** Filtering distributes over concatenation, so it keeps the relative order of what it keeps. */
  lemma {:induction false} ActiveAppend(a: seq<Variation>, b: seq<Variation>)
    ensures Active(a + b) == Active(a) + Active(b)
    decreases |b|
  {
    if b == [] {
      assert a + b == a;
    } else {
      var b' := b[..|b| - 1];
      assert (a + b)[..|a + b| - 1] == a + b';
      assert (a + b)[|a + b| - 1] == b[|b| - 1];
      ActiveAppend(a, b');
    }
  }

  function VariationKey(v: Variation): Id { v.id }

  /** The message of the ValueError `remove_variation` raises. */
  const NoSuchVariation := "Variation not found."

  class Product {
    const id: Id
    var name: string
    var description: string
    var price: int
    var variations: seq<Variation>
    var isDeleted: int
    var events: seq<Event>

    constructor (id: Id, name: string, description: string, price: int, variations: seq<Variation>)
      ensures this.id == id && this.name == name && this.description == description
      ensures this.price == price && this.variations == variations
      ensures isDeleted == 0 && events == []
    {
      this.id, this.name, this.description, this.price := id, name, description, price;
      this.variations := variations;
      isDeleted := 0;
      events := [];
    }

    method AppendEvent(e: Event)
      modifies this`events
      ensures events == old(events) + [e]
    {
      events := events + [e];
    }

    method PopEvents() returns (popped: seq<Event>)
      modifies this`events
      ensures popped == old(events) && events == []
    {
      popped := events;
      events := [];
    }

    method AddVariation(v: Variation)
      modifies this`variations
      ensures variations == old(variations) + [v]
    {
      variations := variations + [v];
    }

    /** `get_active_variations`. */
    function ActiveVariations(): seq<Variation>
      reads this, variations
    {
      Active(variations)
    }

    /** Returns the first active variation with id `vid`, or None. */
    method GetVariationById(vid: Id) returns (r: Option<Variation>)
      ensures r == Lookup(ActiveVariations(), VariationKey, vid)
      ensures r.Some? ==> r.value in variations && r.value.isDeleted == 0 && r.value.id == vid
    {
      var active := ActiveVariations();
      ActiveFilters(variations);
      for i := 0 to |active|
        invariant forall j :: 0 <= j < i ==> active[j].id != vid
      {
        if active[i].id == vid {
          LookupAt(active, VariationKey, vid, i);
          assert active[i] in active;
          return Some(active[i]);
        }
      }
      return None;
    }

    /** Soft-deletes the first active variation with id `vid`; raises ValueError when there is none. */
    method RemoveVariation(vid: Id) returns (err: Option<Failure>)
      modifies variations`isDeleted
      ensures match old(Lookup(ActiveVariations(), VariationKey, vid))
        case None =>
          err == Some(ValueError(NoSuchVariation)) &&
          forall w :: w in variations ==> w.isDeleted == old(w.isDeleted)
        case Some(v) =>
          err == None && v.isDeleted == 1 &&
          forall w :: w in variations && w != v ==> w.isDeleted == old(w.isDeleted)
    {
      var found := GetVariationById(vid);
      if found.Some? {
        found.value.isDeleted := 1;
        return None;
      }
      return Some(ValueError(NoSuchVariation));
    }
  }

  /** Whether `change_status` lets an order move from `from` to `to`. The code puts no guard on
      a move to Waiting, so Preparation, Ready and Delivered may all go back to Waiting. */
  predicate Allowed(from: OrderStatus, to: OrderStatus) {
    from != to && from != Cancelled &&
    match to
    case Waiting => true
    case Preparation => from == Waiting
    case Ready => from == Preparation
    case Delivered => from == Ready
    case Cancelled => from == Waiting || from == Preparation
  }

  /** The messages of the ValueErrors `change_status` raises. */
  const SameStatus := "Cannot change to the same status."
  const CannotCancel := "Cannot cancel an order that is already delivered, cancelled, or ready."
  const NotWaiting := "Cannot move to preparation unless the order is in waiting status."
  const NotPreparation := "Cannot move to ready unless the order is in preparation status."
  const NotReady := "Cannot move to delivered unless the order is in ready status."
  const AlreadyCancelled := "Order already cancelled. Cannot change status anymore."

  /** The ValueError `change_status` raises for a move from `from` to `to`, checked in the
      code's order, or None when the move is accepted. */
  function TransitionError(from: OrderStatus, to: OrderStatus): (err: Option<Failure>)
    ensures err.Some? ==> err.value.ValueError?
    ensures from == to ==> err == Some(ValueError(SameStatus))
  {
    if from == to then Some(ValueError(SameStatus))
    else if to == Cancelled && from in {Delivered, Cancelled, Ready} then
      Some(ValueError(CannotCancel))
    else if to == Preparation && from != Waiting then
      Some(ValueError(NotWaiting))
    else if to == Ready && from != Preparation then
      Some(ValueError(NotPreparation))
    else if to == Delivered && from != Ready then
      Some(ValueError(NotReady))
    else if from == Cancelled then
      Some(ValueError(AlreadyCancelled))
    else None
  }

  /** `change_status` accepts exactly the moves of `Allowed`. */
  lemma TransitionAllowed(from: OrderStatus, to: OrderStatus)
    ensures TransitionError(from, to).None? <==> Allowed(from, to)
  {
    match from
    case Waiting =>
    case Preparation =>
    case Ready =>
    case Delivered =>
    case Cancelled =>
  }

  function OrderKey(o: Order): Id { o.id }

  class Order {
    const id: Id
    const consumeLocation: ConsumeLocation
    const totalCost: int
    const userId: Id
    const orderItems: seq<OrderItem>
    var status: OrderStatus
    var events: seq<Event>
    const createdAt: Option<Timestamp>
    const updatedAt: Option<Timestamp>

    constructor (id: Id, consumeLocation: ConsumeLocation, totalCost: int, userId: Id,
                 orderItems: seq<OrderItem>, status: OrderStatus,
                 createdAt: Option<Timestamp>, updatedAt: Option<Timestamp>)
      ensures this.id == id && this.consumeLocation == consumeLocation
      ensures this.totalCost == totalCost && this.userId == userId
      ensures this.orderItems == orderItems && this.status == status
      ensures this.createdAt == createdAt && this.updatedAt == updatedAt
      ensures events == []
    {
      this.id, this.consumeLocation, this.totalCost, this.userId := id, consumeLocation, totalCost, userId;
      this.orderItems, this.status := orderItems, status;
      this.createdAt, this.updatedAt := createdAt, updatedAt;
      events := [];
    }

    method AppendEvent(e: Event)
      modifies this`events
      ensures events == old(events) + [e]
    {
      events := events + [e];
    }

    method PopEvents() returns (popped: seq<Event>)
      modifies this`events
      ensures popped == old(events) && events == []
    {
      popped := events;
      events := [];
    }

    /** The event a successful move to `to` records; `now` is the clock reading. */
    function StatusChangedEvent(to: OrderStatus, items: seq<OrderItem>, now: Timestamp): Event {
      OrderStatusChanged(id, userId, totalCost, to, consumeLocation, items, now)
    }

    /** Moves the order to `to`. Every check precedes the one mutation: on failure neither the
        status nor the event queue changes; on success exactly one OrderStatusChanged is queued. */
    method ChangeStatus(to: OrderStatus, items: seq<OrderItem>, now: Timestamp) returns (err: Option<Failure>)
      modifies this`status, this`events
      ensures err == TransitionError(old(status), to)
      ensures err.None? ==> status == to && events == old(events) + [StatusChangedEvent(to, items, now)]
      ensures err.Some? ==> status == old(status) && events == old(events)
    {
      err := TransitionError(status, to);
      if err.Some? {
        return;
      }
      status := to;
      AppendEvent(StatusChangedEvent(to, items, now));
    }
  }
}
