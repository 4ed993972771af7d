/** The repositories of api/adapters/repository.py instantiated over the in-memory store of
    tests/unit/test_handler.py. `FakeStore` is the list-backed `_add/_get/_update/_delete`
    primitive shared by the fake repositories; each repository class is the abstract wrapper that
    keeps the `seen` set of the aggregates it has handed out or been given. */
module Repository {
  import opened Messages
  import opened Seqs
  import opened Models

  /** The list `_update` leaves: the first element with `x`'s id replaced by `x`, at its index;
      the list unchanged when no element has that id. */
  function Replaced<T>(items: seq<T>, key: T -> Id, x: T): (r: seq<T>)
    ensures |r| == |items|
    ensures match FirstIndex(items, key, key(x))
      case None => r == items
      case Some(i) => r[i] == x && forall j :: 0 <= j < |items| && j != i ==> r[j] == items[j]
  {
    match FirstIndex(items, key, key(x))
    case None => items
    case Some(i) => items[i := x]
  }

  /** Replacing the element that a lookup finds by that same element changes nothing. */
  lemma ReplacedFound<T>(items: seq<T>, key: T -> Id, x: T)
    requires Lookup(items, key, key(x)) == Some(x)
    ensures Replaced(items, key, x) == items
  {
    var i := FirstIndex(items, key, key(x)).value;
    assert items[i := x] == items;
  }

  /** A backing list of entities, compared by `key` (their id). */
  class FakeStore<T> {
    const key: T -> Id
    var items: seq<T>

    constructor (key: T -> Id, items: seq<T>)
      ensures this.key == key && this.items == items
    {
      this.key, this.items := key, items;
    }

    /** `_add`: appends to the end of the list. */
    method Add(x: T)
      modifies this`items
      ensures items == old(items) + [x]
    {
      items := items + [x];
    }

    /** `_get`: the first element whose id matches, or None. */
    method Get(k: Id) returns (r: Option<T>)
      ensures r == Lookup(items, key, k)
    {
      for i := 0 to |items|
        invariant forall j :: 0 <= j < i ==> key(items[j]) != k
      {
        if key(items[i]) == k {
          LookupAt(items, key, k, i);
          return Some(items[i]);
        }
      }
      return None;
    }

    /** `_update`: replaces the first element with the same id, at its index. */
    method Update(x: T) returns (ok: bool)
      modifies this`items
      ensures ok == FirstIndex(old(items), key, key(x)).Some?
      ensures items == Replaced(old(items), key, x)
    {
      for i := 0 to |items|
        invariant forall j :: 0 <= j < i ==> key(items[j]) != key(x)
      {
        if key(items[i]) == key(x) {
          LookupAt(items, key, key(x), i);
          items := items[i := x];
          return true;
        }
      }
      return false;
    }

    /** `_delete`: removes the first element whose id is `k`. (`list.remove` removes the first
        element equal to the one found, which is that same element.) */
    method Delete(k: Id) returns (ok: bool)
      modifies this`items
      ensures ok == FirstIndex(old(items), key, k).Some?
      ensures ok ==> var i := FirstIndex(old(items), key, k).value;
                     items == old(items)[..i] + old(items)[i + 1..]
      ensures !ok ==> items == old(items)
    {
      for i := 0 to |items|
        invariant forall j :: 0 <= j < i ==> key(items[j]) != k
      {
        if key(items[i]) == k {
          LookupAt(items, key, k, i);
          items := items[..i] + items[i + 1..];
          return true;
        }
      }
      return false;
    }
  }

  /** `seen.add(x)` on a set whose elements compare by id: an element with the same id already
      present stays, otherwise `x` joins. */
  function Remember<T>(seen: map<Id, T>, k: Id, x: T): (r: map<Id, T>)
    ensures r.Keys == seen.Keys + {k}
    ensures forall j :: j in seen ==> r[j] == seen[j]
    ensures k !in seen ==> r[k] == x
  {
    if k in seen then seen else seen[k := x]
  }

  /** `get_all`'s answer for what `_get_all` returned: that list, or [] when it is empty or None. */
  function PageOrEmpty<T>(fetched: Option<seq<T>>): (r: seq<T>)
    ensures r == [] <==> fetched.None? || fetched.value == []
    ensures r != [] ==> fetched == Some(r)
  {
    match fetched
    case Some(xs) => if xs != [] then xs else []
    case None => []
  }

  function UserKey(u: User): Id { u.id }
  function ProductKey(p: Product): Id { p.id }

  class UserRepository {
    const store: FakeStore<User>
    var seen: map<Id, User>

    constructor (store: FakeStore<User>)
      ensures this.store == store && seen == map[]
    {
      this.store := store;
      seen := map[];
    }

    method Add(u: User)
      modifies this`seen, store`items
      ensures store.items == old(store.items) + [u]
      ensures seen == Remember(old(seen), u.id, u)
    {
      store.Add(u);
      seen := Remember(seen, u.id, u);
    }

    /** Returns `_get`'s answer unchanged; a found user joins `seen`. */
    method Get(k: Id) returns (r: Option<User>)
      modifies this`seen
      ensures r == Lookup(store.items, store.key, k)
      ensures seen == if r.Some? then Remember(old(seen), r.value.id, r.value) else old(seen)
    {
      r := store.Get(k);
      if r.Some? {
        seen := Remember(seen, r.value.id, r.value);
      }
    }

    /** `update` only persists: `seen` is left as it is. */
    method Update(u: User)
      modifies store`items
      ensures store.items == Replaced(old(store.items), store.key, u)
    {
      var _ := store.Update(u);
    }

    /** `delete` hands the entity itself to `_delete`, which compares it against ids and so
        matches nothing; then `seen.remove` raises KeyError when the user was not seen. */
    method Delete(u: User) returns (err: Option<Failure>)
      modifies this`seen
      ensures err == if u.id in old(seen) then None else Some(KeyError(u.id))
      ensures seen == old(seen) - {u.id}
    {
      if u.id in seen {
        seen := seen - {u.id};
        return None;
      }
      return Some(KeyError(u.id));
    }
  }

  class ProductRepository {
    const store: FakeStore<Product>
    var seen: set<Product>

    constructor (store: FakeStore<Product>)
      ensures this.store == store && seen == {}
    {
      this.store := store;
      seen := {};
    }

    method Add(p: Product)
      modifies this`seen, store`items
      ensures store.items == old(store.items) + [p]
      ensures seen == old(seen) + {p}
    {
      store.Add(p);
      seen := seen + {p};
    }

    method Get(k: Id) returns (r: Option<Product>)
      modifies this`seen
      ensures r == Lookup(store.items, store.key, k)
      ensures seen == if r.Some? then old(seen) + {r.value} else old(seen)
    {
      r := store.Get(k);
      if r.Some? {
        seen := seen + {r.value};
      }
    }

    method Update(p: Product)
      modifies store`items
      ensures store.items == Replaced(old(store.items), store.key, p)
    {
      var _ := store.Update(p);
    }

    /** As for users: the store keeps the product; `seen.remove` raises when it was not seen. */
    method Delete(p: Product) returns (err: Option<Failure>)
      modifies this`seen
      ensures err == if p in old(seen) then None else Some(KeyError(p.id))
      ensures seen == old(seen) - {p}
    {
      if p in seen {
        seen := seen - {p};
        return None;
      }
      return Some(KeyError(p.id));
    }

    /** `get_all` with `_get_all`'s answer as a parameter; products do not join `seen`. */
    method GetAll(fetched: Option<seq<Product>>) returns (r: seq<Product>)
      ensures r == PageOrEmpty(fetched)
    {
      if fetched.Some? && fetched.value != [] {
        return fetched.value;
      }
      return [];
    }
  }

  class VariationRepository {
    const store: FakeStore<Variation>
    var seen: set<Variation>

    constructor (store: FakeStore<Variation>)
      ensures this.store == store && seen == {}
    {
      this.store := store;
      seen := {};
    }

    method Add(v: Variation)
      modifies this`seen, store`items
      ensures store.items == old(store.items) + [v]
      ensures seen == old(seen) + {v}
    {
      store.Add(v);
      seen := seen + {v};
    }

    method Get(k: Id) returns (r: Option<Variation>)
      modifies this`seen
      ensures r == Lookup(store.items, store.key, k)
      ensures seen == if r.Some? then old(seen) + {r.value} else old(seen)
    {
      r := store.Get(k);
      if r.Some? {
        seen := seen + {r.value};
      }
    }

    method Update(v: Variation)
      modifies store`items
      ensures store.items == Replaced(old(store.items), store.key, v)
    {
      var _ := store.Update(v);
    }

    method Delete(v: Variation) returns (err: Option<Failure>)
      modifies this`seen
      ensures err == if v in old(seen) then None else Some(KeyError(v.id))
      ensures seen == old(seen) - {v}
    {
      if v in seen {
        seen := seen - {v};
        return None;
      }
      return Some(KeyError(v.id));
    }
  }

  /** The keys `dataclasses.asdict` yields for an Order: its declared fields. */
  const OrderFieldNames: set<string> :=
    {"consume_location", "total_cost", "user_id", "order_items", "status", "id", "_events",
     "created_at", "updated_at"}

  /** The keyword parameters `OrderCreated` accepts. */
  const OrderCreatedParameters: set<string> :=
    {"id", "status", "updated_at", "user_id", "total_cost", "consume_location", "order_items",
     "created_at"}

  /** `d.pop(k)` without a default, on the keys of a dict. */
  function DictPop(keys: set<string>, k: string): (r: Result<set<string>>)
    ensures r.Ok? <==> k in keys
    ensures r.Ok? ==> r.value == keys - {k}
    ensures r.Err? ==> r.error == KeyError(k)
  {
    if k in keys then Ok(keys - {k}) else Err(KeyError(k))
  }

  /** The payload `AbstractOrderRepository.add` builds, AS WRITTEN: pop "_events", then
      pop "is_deleted" without a default. */
  function CreatedPayloadAsWritten(keys: set<string>): Result<set<string>> {
    match DictPop(keys, "_events")
    case Err(e) => Err(e)
    case Ok(rest) => DictPop(rest, "is_deleted")
  }

  /** An Order has no `is_deleted` field, so the payload step raises KeyError for every order. */
  lemma AddRaisesAsWritten()
    ensures CreatedPayloadAsWritten(OrderFieldNames) == Err(KeyError("is_deleted"))
  {
  }

  /** The payload as evidently intended: "is_deleted" popped only when present. */
  function CreatedPayload(keys: set<string>): set<string> {
    keys - {"_events"} - {"is_deleted"}
  }

  /** With that correction the remaining keys are exactly the parameters of OrderCreated. */
  lemma CreatedPayloadFitsEvent()
    ensures CreatedPayload(OrderFieldNames) == OrderCreatedParameters
  {
  }

  /** The OrderCreated event built from an order's own fields: one argument per member of
      `OrderCreatedParameters`, which `CreatedPayloadFitsEvent` shows is what the corrected
      payload keeps of `OrderFieldNames`. */
  function CreatedEvent(o: Order): (e: Event)
    reads o
    ensures e.OrderCreated? && e.id == o.id && e.status == o.status
    ensures e.userId == o.userId && e.totalCost == o.totalCost
    ensures e.consumeLocation == o.consumeLocation && e.orderItems == o.orderItems
    ensures e.createdAt == o.createdAt && e.updatedAt == o.updatedAt
  {
    OrderCreated(o.id, o.status, o.updatedAt, o.userId, o.totalCost, o.consumeLocation,
                 o.orderItems, o.createdAt)
  }

  class OrderRepository {
    const store: FakeStore<Order>
    var seen: map<Id, Order>

    constructor (store: FakeStore<Order>)
      ensures this.store == store && seen == map[]
    {
      this.store := store;
      seen := map[];
    }

    /** Persists the order, queues exactly one OrderCreated on it, then marks it seen. */
    method Add(o: Order)
      modifies this`seen, store`items, o`events
      ensures store.items == old(store.items) + [o]
      ensures o.events == old(o.events) + [CreatedEvent(o)]
      ensures seen == Remember(old(seen), o.id, o)
    {
      store.Add(o);
      o.AppendEvent(CreatedEvent(o));
      seen := Remember(seen, o.id, o);
    }

    method Get(k: Id) returns (r: Option<Order>)
      modifies this`seen
      ensures r == Lookup(store.items, store.key, k)
      ensures seen == if r.Some? then Remember(old(seen), r.value.id, r.value) else old(seen)
    {
      r := store.Get(k);
      if r.Some? {
        seen := Remember(seen, r.value.id, r.value);
      }
    }

    /** `get_all` with `_get_all`'s answer as a parameter; every returned order joins `seen`. */
    method GetAll(fetched: Option<seq<Order>>) returns (r: seq<Order>)
      modifies this`seen
      ensures r == PageOrEmpty(fetched)
      ensures seen.Keys == old(seen).Keys + (set o | o in r :: o.id)
      ensures forall k :: k in old(seen) ==> seen[k] == old(seen)[k]
      ensures forall o :: o in r && o.id !in old(seen) ==> seen[o.id] in r && seen[o.id].id == o.id
    {
      r := PageOrEmpty(fetched);
      for i := 0 to |r|
        invariant seen.Keys == old(seen).Keys + (set o | o in r[..i] :: o.id)
        invariant forall k :: k in old(seen) ==> seen[k] == old(seen)[k]
        invariant forall o :: o in r[..i] && o.id !in old(seen) ==> seen[o.id] in r[..i] && seen[o.id].id == o.id
      {
        assert r[..i + 1] == r[..i] + [r[i]];
        if r[i].id in seen && r[i].id !in old(seen) {
          ghost var o' :| o' in r[..i] && o'.id == r[i].id;
        }
        seen := Remember(seen, r[i].id, r[i]);
      }
      assert r[..|r|] == r;
    }

    method Update(o: Order)
      modifies store`items
      ensures store.items == Replaced(old(store.items), store.key, o)
    {
      var _ := store.Update(o);
    }

    method Delete(o: Order) returns (err: Option<Failure>)
      modifies this`seen
      ensures err == if o.id in old(seen) then None else Some(KeyError(o.id))
      ensures seen == old(seen) - {o.id}
    {
      if o.id in seen {
        seen := seen - {o.id};
        return None;
      }
      return Some(KeyError(o.id));
    }
  }
}
