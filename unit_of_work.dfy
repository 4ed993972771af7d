/** The unit of work of api/service_layer/unit_of_work.py: the four repositories a handler works
    through, the scope that `async with uow` opens and closes, `commit`, and `collect_new_events`.
    One class stands for both implementations: `Fake` is FakeUnitOfWork of
    tests/unit/test_handler.py, `SqlAlchemy` is SqlAlchemyUnitOfWork. Both read and write the same
    list-backed stores, which stand in for the database behind the session. */
module UnitOfWork {
  import opened Messages
  import opened Seqs
  import opened Models
  import opened Repository

  datatype Flavor = Fake | SqlAlchemy

  /** What `__aenter__` leaves of a `seen` map: the fake keeps it, a new SqlAlchemy session
      starts from an empty one. */
  function Entered<T>(flavor: Flavor, seen: map<Id, T>): map<Id, T> {
    if flavor.Fake? then seen else map[]
  }

  /** The same for a `seen` set. */
  function EnteredSet<T>(flavor: Flavor, seen: set<T>): set<T> {
    if flavor.Fake? then seen else {}
  }

  /** `while obj._events: yield obj._events.pop(0)` for a user: the queue, front first. */
  method DrainUser(u: User) returns (drained: seq<Event>)
    modifies u`events
    ensures drained == old(u.events) && u.events == []
  {
    drained := [];
    while u.events != []
      invariant drained + u.events == old(u.events)
      decreases |u.events|
    {
      drained := drained + [u.events[0]];
      u.events := u.events[1..];
    }
  }

  method DrainOrder(o: Order) returns (drained: seq<Event>)
    modifies o`events
    ensures drained == old(o.events) && o.events == []
  {
    drained := [];
    while o.events != []
      invariant drained + o.events == old(o.events)
      decreases |o.events|
    {
      drained := drained + [o.events[0]];
      o.events := o.events[1..];
    }
  }

  method DrainProduct(p: Product) returns (drained: seq<Event>)
    modifies p`events
    ensures drained == old(p.events) && p.events == []
  {
    drained := [];
    while p.events != []
      invariant drained + p.events == old(p.events)
      decreases |p.events|
    {
      drained := drained + [p.events[0]];
      p.events := p.events[1..];
    }
  }

  /** Drains the queues of `us` in that order, recording what each held. */
  method DrainUsers(us: seq<User>) returns (r: seq<Event>, ghost queues: seq<seq<Event>>)
    requires forall i, j :: 0 <= i < j < |us| ==> us[i] != us[j]
    modifies (set i | 0 <= i < |us| :: us[i])`events
    ensures |queues| == |us| && forall i :: 0 <= i < |us| ==> queues[i] == old(us[i].events)
    ensures r == Flatten(queues)
    ensures forall i :: 0 <= i < |us| ==> us[i].events == []
  {
    r, queues := [], [];
    for k := 0 to |us|
      invariant |queues| == k && forall i :: 0 <= i < k ==> queues[i] == old(us[i].events)
      invariant r == Flatten(queues)
      invariant forall i :: 0 <= i < k ==> us[i].events == []
      invariant forall i :: k <= i < |us| ==> us[i].events == old(us[i].events)
    {
      var drained := DrainUser(us[k]);
      assert (queues + [drained])[..k] == queues;
      r, queues := r + drained, queues + [drained];
    }
  }

  method DrainOrders(os: seq<Order>) returns (r: seq<Event>, ghost queues: seq<seq<Event>>)
    requires forall i, j :: 0 <= i < j < |os| ==> os[i] != os[j]
    modifies (set i | 0 <= i < |os| :: os[i])`events
    ensures |queues| == |os| && forall i :: 0 <= i < |os| ==> queues[i] == old(os[i].events)
    ensures r == Flatten(queues)
    ensures forall i :: 0 <= i < |os| ==> os[i].events == []
  {
    r, queues := [], [];
    for k := 0 to |os|
      invariant |queues| == k && forall i :: 0 <= i < k ==> queues[i] == old(os[i].events)
      invariant r == Flatten(queues)
      invariant forall i :: 0 <= i < k ==> os[i].events == []
      invariant forall i :: k <= i < |os| ==> os[i].events == old(os[i].events)
    {
      var drained := DrainOrder(os[k]);
      assert (queues + [drained])[..k] == queues;
      r, queues := r + drained, queues + [drained];
    }
  }

  method DrainProducts(ps: seq<Product>) returns (r: seq<Event>, ghost queues: seq<seq<Event>>)
    requires forall i, j :: 0 <= i < j < |ps| ==> ps[i] != ps[j]
    modifies (set i | 0 <= i < |ps| :: ps[i])`events
    ensures |queues| == |ps| && forall i :: 0 <= i < |ps| ==> queues[i] == old(ps[i].events)
    ensures r == Flatten(queues)
    ensures forall i :: 0 <= i < |ps| ==> ps[i].events == []
  {
    r, queues := [], [];
    for k := 0 to |ps|
      invariant |queues| == k && forall i :: 0 <= i < k ==> queues[i] == old(ps[i].events)
      invariant r == Flatten(queues)
      invariant forall i :: 0 <= i < k ==> ps[i].events == []
      invariant forall i :: k <= i < |ps| ==> ps[i].events == old(ps[i].events)
    {
      var drained := DrainProduct(ps[k]);
      assert (queues + [drained])[..k] == queues;
      r, queues := r + drained, queues + [drained];
    }
  }

  class UnitOfWork {
    const flavor: Flavor
    const userStore: FakeStore<User>
    const productStore: FakeStore<Product>
    const variationStore: FakeStore<Variation>
    const orderStore: FakeStore<Order>
    const users: UserRepository
    const products: ProductRepository
    const variations: VariationRepository
    const orders: OrderRepository
    /** FakeUnitOfWork.committed. */
    var committed: bool
    /** Whether a SQLAlchemy session is open, and what was asked of it. */
    var sessionOpen: bool
    var sessionCommits: nat
    var sessionRollbacks: nat
    /** How many times `commit` has been called, in either flavour. */
    ghost var commits: nat

    ghost predicate Valid() {
      users.store == userStore && products.store == productStore &&
      variations.store == variationStore && orders.store == orderStore &&
      userStore.key == UserKey && productStore.key == ProductKey &&
      variationStore.key == VariationKey && orderStore.key == OrderKey &&
      // four separate lists
      userStore as object != productStore && userStore as object != variationStore &&
      userStore as object != orderStore && productStore as object != variationStore &&
      productStore as object != orderStore && variationStore as object != orderStore
    }

    /** Everything a handler may touch through the unit of work, aggregates aside. */
    ghost function Repr(): set<object>
      reads this
    {
      {this, users, products, variations, orders, userStore, productStore, variationStore, orderStore}
    }

    /** FakeUnitOfWork.__init__ with the given rows already in its lists; for SqlAlchemy, the
        session factory over a database holding those rows. */
    constructor (flavor: Flavor, users: seq<User>, products: seq<Product>,
                 variations: seq<Variation>, orders: seq<Order>)
      ensures Valid() && this.flavor == flavor
      ensures userStore.items == users && productStore.items == products
      ensures variationStore.items == variations && orderStore.items == orders
      ensures this.users.seen == map[] && this.products.seen == {}
      ensures this.variations.seen == {} && this.orders.seen == map[]
      ensures !committed && !sessionOpen && sessionCommits == 0 && sessionRollbacks == 0 && commits == 0
      ensures fresh(userStore) && fresh(productStore) && fresh(variationStore) && fresh(orderStore)
      ensures fresh(this.users) && fresh(this.products) && fresh(this.variations) && fresh(this.orders)
    {
      this.flavor := flavor;
      var us := new FakeStore(UserKey, users);
      var ps := new FakeStore(ProductKey, products);
      var vs := new FakeStore(VariationKey, variations);
      var os := new FakeStore(OrderKey, orders);
      userStore, productStore, variationStore, orderStore := us, ps, vs, os;
      this.users := new UserRepository(us);
      this.products := new ProductRepository(ps);
      this.variations := new VariationRepository(vs);
      this.orders := new OrderRepository(os);
      committed, sessionOpen, sessionCommits, sessionRollbacks := false, false, 0, 0;
      commits := 0;
    }

    /** `__aenter__`. The fake returns itself untouched. SqlAlchemy opens a session and builds
        fresh repositories, whose `seen` sets start empty; the model keeps one repository per
        kind and empties its `seen` set, since nothing holds on to the repositories a new
        session replaces. */
    method Enter()
      requires Valid()
      modifies this`sessionOpen, users`seen, products`seen, variations`seen, orders`seen
      ensures Valid()
      ensures sessionOpen == (flavor.SqlAlchemy? || old(sessionOpen))
      ensures users.seen == (if flavor.Fake? then old(users.seen) else map[])
      ensures products.seen == (if flavor.Fake? then old(products.seen) else {})
      ensures variations.seen == (if flavor.Fake? then old(variations.seen) else {})
      ensures orders.seen == (if flavor.Fake? then old(orders.seen) else map[])
    {
      if flavor.SqlAlchemy? {
        sessionOpen := true;
        users.seen := map[];
        products.seen := {};
        variations.seen := {};
        orders.seen := map[];
      }
    }

    /** `__aexit__`, with `raised` telling whether the scope ended by an exception. The fake
        does nothing; SqlAlchemy rolls back only after an exception, then closes the session.
        Neither commits. */
    method Exit(raised: bool)
      requires Valid()
      modifies this`sessionOpen, this`sessionRollbacks
      ensures Valid()
      ensures flavor.Fake? ==> sessionOpen == old(sessionOpen) && sessionRollbacks == old(sessionRollbacks)
      ensures flavor.SqlAlchemy? ==>
        !sessionOpen && sessionRollbacks == old(sessionRollbacks) + (if raised then 1 else 0)
    {
      if flavor.SqlAlchemy? {
        if raised {
          sessionRollbacks := sessionRollbacks + 1;
        }
        sessionOpen := false;
      }
    }

    /** `commit`, which calls `_commit`. The fake flips `committed`. SqlAlchemy creates the
        `collect_new_events` generator without iterating it, so no event is drained, and then
        commits the session. */
    method Commit()
      requires Valid()
      modifies this`committed, this`sessionCommits, this`commits
      ensures Valid()
      ensures commits == old(commits) + 1
      ensures flavor.Fake? ==> committed && sessionCommits == old(sessionCommits)
      ensures flavor.SqlAlchemy? ==> committed == old(committed) && sessionCommits == old(sessionCommits) + 1
    {
      commits := commits + 1;
      if flavor.Fake? {
        committed := true;
      } else {
        sessionCommits := sessionCommits + 1;
      }
    }

    /** `collect_new_events`, iterated to the end. It visits the users, orders and products
        repositories in that order, each `seen` set in some order of its own (`us`, `os`, `ps`
        record the order taken), and yields every queued event of every aggregate visited exactly
        once, front first, leaving each of those queues empty: `uq`, `oq`, `pq` record what was
        queued on each aggregate, in visiting order. Variations are never visited. */
    method CollectNewEvents() returns (r: seq<Event>,
                                       ghost us: seq<User>, ghost uq: seq<seq<Event>>,
                                       ghost os: seq<Order>, ghost oq: seq<seq<Event>>,
                                       ghost ps: seq<Product>, ghost pq: seq<seq<Event>>)
      modifies users.seen.Values`events, orders.seen.Values`events, products.seen`events
      ensures Enumerates(us, users.seen.Values) && |uq| == |us|
      ensures forall i :: 0 <= i < |us| ==> old(allocated(us[i])) && uq[i] == old(us[i].events) && us[i].events == []
      ensures Enumerates(os, orders.seen.Values) && |oq| == |os|
      ensures forall i :: 0 <= i < |os| ==> old(allocated(os[i])) && oq[i] == old(os[i].events) && os[i].events == []
      ensures Enumerates(ps, products.seen) && |pq| == |ps|
      ensures forall i :: 0 <= i < |ps| ==> old(allocated(ps[i])) && pq[i] == old(ps[i].events) && ps[i].events == []
      ensures r == Flatten(uq) + Flatten(oq) + Flatten(pq)
    {
      var fromUsers, fromOrders, fromProducts;
      fromUsers, us, uq := CollectUsers();
      fromOrders, os, oq := CollectOrders();
      fromProducts, ps, pq := CollectProducts();
      r := fromUsers + fromOrders + fromProducts;
    }

    method CollectUsers() returns (r: seq<Event>, ghost us: seq<User>, ghost uq: seq<seq<Event>>)
      modifies users.seen.Values`events
      ensures Enumerates(us, users.seen.Values) && |uq| == |us|
      ensures forall i :: 0 <= i < |us| ==> old(allocated(us[i])) && uq[i] == old(us[i].events) && us[i].events == []
      ensures r == Flatten(uq)
    {
      var order := Enumerate(users.seen.Values);
      assert forall i :: 0 <= i < |order| ==> order[i] in users.seen.Values;
      assert forall i :: 0 <= i < |order| ==> old(allocated(order[i]));
      r, uq := DrainUsers(order);
      us := order;
    }

    method CollectOrders() returns (r: seq<Event>, ghost os: seq<Order>, ghost oq: seq<seq<Event>>)
      modifies orders.seen.Values`events
      ensures Enumerates(os, orders.seen.Values) && |oq| == |os|
      ensures forall i :: 0 <= i < |os| ==> old(allocated(os[i])) && oq[i] == old(os[i].events) && os[i].events == []
      ensures r == Flatten(oq)
    {
      var order := Enumerate(orders.seen.Values);
      assert forall i :: 0 <= i < |order| ==> order[i] in orders.seen.Values;
      assert forall i :: 0 <= i < |order| ==> old(allocated(order[i]));
      r, oq := DrainOrders(order);
      os := order;
    }

    method CollectProducts() returns (r: seq<Event>, ghost ps: seq<Product>, ghost pq: seq<seq<Event>>)
      modifies products.seen`events
      ensures Enumerates(ps, products.seen) && |pq| == |ps|
      ensures forall i :: 0 <= i < |ps| ==> old(allocated(ps[i])) && pq[i] == old(ps[i].events) && ps[i].events == []
      ensures r == Flatten(pq)
    {
      var order := Enumerate(products.seen);
      assert forall i :: 0 <= i < |order| ==> order[i] in products.seen;
      assert forall i :: 0 <= i < |order| ==> old(allocated(order[i]));
      r, pq := DrainProducts(order);
      ps := order;
    }

    /** Whether every aggregate `collect_new_events` visits has an empty queue. */
    ghost predicate Drained()
      reads users, orders, products, users.seen.Values, orders.seen.Values, products.seen
    {
      (forall u :: u in users.seen.Values ==> u.events == []) &&
      (forall o :: o in orders.seen.Values ==> o.events == []) &&
      (forall p :: p in products.seen ==> p.events == [])
    }

    /** `collect_new_events` over queues that are all empty yields nothing. */
    method CollectDrained() returns (r: seq<Event>)
      requires Drained()
      modifies users.seen.Values`events, orders.seen.Values`events, products.seen`events
      ensures r == []
    {
      ghost var us, uq, os, oq, ps, pq;
      r, us, uq, os, oq, ps, pq := CollectNewEvents();
      assert forall i :: 0 <= i < |uq| ==> uq[i] == [] by {
        forall i | 0 <= i < |uq| ensures uq[i] == [] {
          assert us[i] in users.seen.Values;
        }
      }
      assert forall i :: 0 <= i < |oq| ==> oq[i] == [] by {
        forall i | 0 <= i < |oq| ensures oq[i] == [] {
          assert os[i] in orders.seen.Values;
        }
      }
      assert forall i :: 0 <= i < |pq| ==> pq[i] == [] by {
        forall i | 0 <= i < |pq| ensures pq[i] == [] {
          assert ps[i] in products.seen;
        }
      }
      FlattenEmpty(uq);
      FlattenEmpty(oq);
      FlattenEmpty(pq);
    }

    /** Iterating `collect_new_events` a second time right after a full iteration yields
        nothing: every queue it visits was emptied by the first. */
    method CollectTwice() returns (first: seq<Event>, second: seq<Event>)
      modifies users.seen.Values`events, orders.seen.Values`events, products.seen`events
      ensures second == []
    {
      ghost var us, uq, os, oq, ps, pq;
      first, us, uq, os, oq, ps, pq := CollectNewEvents();
      assert Drained() by {
        forall u | u in users.seen.Values ensures u.events == [] {
          var i :| 0 <= i < |us| && us[i] == u;
        }
        forall o | o in orders.seen.Values ensures o.events == [] {
          var i :| 0 <= i < |os| && os[i] == o;
        }
        forall p | p in products.seen ensures p.events == [] {
          var i :| 0 <= i < |ps| && ps[i] == p;
        }
      }
      second := CollectDrained();
    }
  }
}
