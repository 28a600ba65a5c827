/** The Order service's tables and the transactions over them. */
module Orders {
  import opened Messages
  import opened OrderDomain

  datatype OrderRow = OrderRow(sku: Sku, quantity: int, amount: real, status: Status)

  /** orders, processed_messages (consumer "order-service") and outbox. */
  datatype OrderDb = OrderDb(orders: map<Id, OrderRow>, markers: set<Id>, outbox: seq<Row>)

  datatype Outcome =
    | Applied
    | Unchanged
    | Duplicate
    | UnknownTopic
    | UnknownOrder
    | InvalidTransition
    | Premature
    | DatabaseError
  {
    /** The handler returns an error, so the offset must not be committed. */
    predicate IsError() {
      this == Premature || this == DatabaseError
    }

    /** The transaction reaches its commit. */
    predicate Commits() {
      this == Applied || this == Unchanged || this == Duplicate
    }

    /** The transaction commits a new marker. */
    predicate IsFirstAcceptance() {
      this == Applied || this == Unchanged
    }
  }

  function CancelledEnvelope(key: Id, saga: Id): Envelope {
    Envelope(key, saga, TopicOrderCancelled, OrderCancelledData)
  }

  function EmittedRows(emit: seq<Emission>, saga: Id, key: Id): seq<Row> {
    seq(|emit|, i => NewRow(CancelledEnvelope(key, saga)))
  }

  /** The gRPC surface refuses an empty sku or a non-positive quantity. */
  predicate ValidRequest(sku: Sku, quantity: int) {
    sku != "" && quantity > 0
  }

  function CreateOrder(db: OrderDb, id: Id, sku: Sku, quantity: int, amount: real, key: Id): Option<OrderDb> {
    if !ValidRequest(sku, quantity) || id in db.orders then None
    else
      var env := Envelope(key, id, TopicOrderCreated, OrderCreatedData(sku, quantity, amount));
      Some(OrderDb(db.orders[id := OrderRow(sku, quantity, amount, Pending)], db.markers, db.outbox + [NewRow(env)]))
  }

  /** A request is accepted exactly if it names a sku, a positive quantity and a new id; order and event repeat it. */
  lemma CreatedIsExact(db: OrderDb, id: Id, sku: Sku, quantity: int, amount: real, key: Id)
    ensures CreateOrder(db, id, sku, quantity, amount, key).Some? <==> sku != "" && quantity > 0 && id !in db.orders
    ensures CreateOrder(db, id, sku, quantity, amount, key).Some? ==>
              var db' := CreateOrder(db, id, sku, quantity, amount, key).value;
              && db'.orders.Keys == db.orders.Keys + {id}
              && (forall other :: other in db.orders ==> db'.orders[other] == db.orders[other])
              && db'.orders[id].status == Pending && db'.orders[id].sku == sku
              && db'.orders[id].quantity == quantity && db'.orders[id].amount == amount
              && db'.markers == db.markers
              && Announces(db.outbox, db'.outbox,
                           Envelope(key, id, TopicOrderCreated, OrderCreatedData(sku, quantity, amount)))
  {
  }

  /** One consumed event: marker, transition and emission, or no trace at all. */
  function HandleEvent(db: OrderDb, env: Envelope, emitKey: Id): (r: (OrderDb, Outcome))
    ensures !r.1.IsFirstAcceptance() ==> r.0 == db
    ensures r.1.IsFirstAcceptance() ==> env.key !in db.markers && r.0.markers == db.markers + {env.key}
    ensures r.1.IsFirstAcceptance() ==> TopicTrigger(env.topic).Some? && env.saga in db.orders
    ensures r.1 == Duplicate ==> env.key in db.markers
    ensures r.1 != DatabaseError
  {
    if TopicTrigger(env.topic).None? then (db, UnknownTopic)
    else if env.key in db.markers then (db, Duplicate)
    else if env.saga !in db.orders then (db, UnknownOrder)
    else
      var row := db.orders[env.saga];
      match Apply(row.status, TopicTrigger(env.topic).value)
      case ErrInvalidTransition => (db, InvalidTransition)
      case ErrPrematureEvent => (db, Premature)
      case Ok(next, changed, emit) =>
        var marked := db.markers + {env.key};
        if !changed then (db.(markers := marked), Unchanged)
        else
          (OrderDb(db.orders[env.saga := row.(status := next)], marked,
                   db.outbox + EmittedRows(emit, env.saga, emitKey)),
           Applied)
  }

  /** An accepted event sets the status the state machine says, and announces a cancellation once. */
  lemma AcceptedEffect(db: OrderDb, env: Envelope, key: Id)
    requires HandleEvent(db, env, key).1.IsFirstAcceptance()
    ensures TopicTrigger(env.topic).Some? && env.saga in db.orders
    ensures var row := db.orders[env.saga];
            var r := Apply(row.status, TopicTrigger(env.topic).value);
            var db' := HandleEvent(db, env, key).0;
            && r.Ok?
            && db'.orders == db.orders[env.saga := row.(status := r.next)]
            && db'.outbox == db.outbox + if r.next != row.status && r.next == Cancelled
                                         then [NewRow(CancelledEnvelope(key, env.saga))] else []
  {
    var row := db.orders[env.saga];
    var r := Apply(row.status, TopicTrigger(env.topic).value);
    assert EmittedRows(r.emit, env.saga, key)
        == if r.next != row.status && r.next == Cancelled then [NewRow(CancelledEnvelope(key, env.saga))] else [];
    assert db.orders[env.saga := row] == db.orders;
  }

  /** Which answer an event gets, by its topic, its key, its order and the state machine, looked at in that order. */
  lemma OutcomeIsExact(db: OrderDb, env: Envelope, key: Id)
    ensures var outcome := HandleEvent(db, env, key).1;
            if !Consumes(OrderService, env.topic) then outcome == UnknownTopic
            else if env.key in db.markers then outcome == Duplicate
            else if env.saga !in db.orders then outcome == UnknownOrder
            else
              && TopicTrigger(env.topic).Some?
              && var r := Apply(db.orders[env.saga].status, TopicTrigger(env.topic).value);
                 && (outcome == Premature <==> r.ErrPrematureEvent?)
                 && (outcome == InvalidTransition <==> r.ErrInvalidTransition?)
                 && (outcome == Unchanged <==> r.Ok? && r.next == db.orders[env.saga].status)
                 && (outcome == Applied <==> r.Ok? && r.next != db.orders[env.saga].status)
    // Only a premature event holds up the loop; an invalid one, like one for an unknown order, is skipped.
    ensures HandleEvent(db, env, key).1.IsError() <==> HandleEvent(db, env, key).1 == Premature
  {
  }

  /** What the database does to one handler call. */
  datatype HandlerFault =
    | NoFault
    | RollsBack(at: nat)  // statement `at` of the transaction fails; the last one is the commit
    | LosesReply          // the transaction commits, but the handler is told that it failed

  /** How many statements the transaction of this call executes, counting its commit. */
  function Statements(db: OrderDb, env: Envelope, emitKey: Id): nat {
    var r := HandleEvent(db, env, emitKey);
    if r.1 == UnknownTopic then 0
    else if r.1 == Unchanged then 3
    else if r.1 == Applied then 4 + |r.0.outbox| - |db.outbox|
    else 2
  }

  /** One handler call under a fault. */
  function Attempt(db: OrderDb, env: Envelope, emitKey: Id, fault: HandlerFault): (r: (OrderDb, Outcome))
    ensures r.0 == db || r.0 == HandleEvent(db, env, emitKey).0
    ensures !r.1.IsError() ==> r == HandleEvent(db, env, emitKey)
    ensures r.1.IsError() && !fault.LosesReply? ==> r.0 == db
  {
    var r := HandleEvent(db, env, emitKey);
    match fault
    case NoFault => r
    case RollsBack(at) => if at < Statements(db, env, emitKey) then (db, DatabaseError) else r
    case LosesReply => if r.1.Commits() then (r.0, DatabaseError) else r
  }

  /**
   A failing statement leaves no trace and is reported, exactly if the call gets to it: the marker and the read
   (or the commit of a duplicate) come in every call for a known topic, the commit of an accepted event after
   them, the update and the event of a cancellation before that commit.
   */
  lemma RollbackIsExact(db: OrderDb, env: Envelope, key: Id, at: nat)
    ensures var handled, failed := HandleEvent(db, env, key), Attempt(db, env, key, RollsBack(at));
            var changes, announces := handled.0.orders != db.orders, handled.0.outbox != db.outbox;
            if Consumes(OrderService, env.topic)
               && (at <= 1 || (handled.0 != db && at <= 2) || (changes && at <= 3) || (announces && at <= 4))
            then failed == (db, DatabaseError)
            else failed == handled
  {
    var handled := HandleEvent(db, env, key);
    if handled.1.IsFirstAcceptance() {
      AcceptedEffect(db, env, key);
      assert env.key in handled.0.markers && env.key !in db.markers;
      assert handled.0.orders[env.saga].status != db.orders[env.saga].status <==> handled.1 == Applied;
    }
  }

  /** A lost reply takes no effect back: the call is reported as failed exactly if it had something to commit. */
  lemma LostReplyIsExact(db: OrderDb, env: Envelope, key: Id)
    ensures var handled, failed := HandleEvent(db, env, key), Attempt(db, env, key, LosesReply);
            if Consumes(OrderService, env.topic) && (env.key in db.markers || handled.0 != db)
            then failed == (handled.0, DatabaseError)
            else failed == handled
  {
    var handled := HandleEvent(db, env, key);
    if handled.1.IsFirstAcceptance() {
      assert env.key in handled.0.markers && env.key !in db.markers;
    }
  }

  lemma NoFaultIsExact(db: OrderDb, env: Envelope, key: Id)
    ensures Attempt(db, env, key, NoFault) == HandleEvent(db, env, key)
  {
  }

  /** The store, updated in place inside transactions that roll back on error. */
  class Store {
    var orders: map<Id, OrderRow>
    var markers: set<Id>
    var outbox: seq<Row>

    function Db(): OrderDb
      reads this
    {
      OrderDb(orders, markers, outbox)
    }

    constructor ()
      ensures Db() == OrderDb(map[], {}, [])
    {
      orders, markers, outbox := map[], {}, [];
    }

    method Create(id: Id, sku: Sku, quantity: int, amount: real, key: Id) returns (ok: bool)
      modifies this
      ensures ok <==> sku != "" && quantity > 0 && id !in old(orders)
      ensures ok <==> CreateOrder(old(Db()), id, sku, quantity, amount, key).Some?
      ensures Db() == if ok then CreateOrder(old(Db()), id, sku, quantity, amount, key).value else old(Db())
    {
      if sku == "" || quantity <= 0 {
        return false;
      }
      if id in orders {
        return false;
      }
      orders := orders[id := OrderRow(sku, quantity, amount, Pending)];
      outbox := outbox + [NewRow(Envelope(key, id, TopicOrderCreated, OrderCreatedData(sku, quantity, amount)))];
      return true;
    }

    /**
     The marker is inserted first; any later error, and any failing statement, restores the
     begin-of-transaction state.
     */
    method Handle(env: Envelope, emitKey: Id, fault: HandlerFault) returns (outcome: Outcome)
      modifies this
      ensures (Db(), outcome) == Attempt(old(Db()), env, emitKey, fault)
    {
      if TopicTrigger(env.topic).None? {
        return UnknownTopic;
      }
      var trigger := TopicTrigger(env.topic).value;
      var ordersAtBegin, markersAtBegin, outboxAtBegin := orders, markers, outbox;
      if fault == RollsBack(0) {
        return DatabaseError;
      }
      if env.key in markers {
        return if fault == RollsBack(1) || fault == LosesReply then DatabaseError else Duplicate;
      }
      markers := markers + {env.key};
      if fault == RollsBack(1) {
        markers := markersAtBegin;
        return DatabaseError;
      }
      if env.saga !in orders {
        markers := markersAtBegin;
        return UnknownOrder;
      }
      var row := orders[env.saga];
      var res := Apply(row.status, trigger);
      if !res.Ok? {
        markers := markersAtBegin;
        return if res.ErrPrematureEvent? then Premature else InvalidTransition;
      }
      if !res.changed {
        if fault == RollsBack(2) {
          markers := markersAtBegin;
          return DatabaseError;
        }
        return if fault == LosesReply then DatabaseError else Unchanged;
      }
      orders := orders[env.saga := row.(status := res.next)];
      if fault == RollsBack(2) {
        orders, markers := ordersAtBegin, markersAtBegin;
        return DatabaseError;
      }
      var i := 0;
      while i < |res.emit|
        invariant 0 <= i <= |res.emit|
        invariant orders == old(orders)[env.saga := row.(status := res.next)]
        invariant markers == old(markers) + {env.key}
        invariant outbox == old(outbox) + EmittedRows(res.emit[..i], env.saga, emitKey)
        invariant fault.RollsBack? ==> fault.at >= 3 + i
      {
        outbox := outbox + [NewRow(CancelledEnvelope(emitKey, env.saga))];
        if fault == RollsBack(3 + i) {
          orders, markers, outbox := ordersAtBegin, markersAtBegin, outboxAtBegin;
          return DatabaseError;
        }
        i := i + 1;
      }
      assert res.emit[..i] == res.emit;
      if fault == RollsBack(3 + i) {
        orders, markers, outbox := ordersAtBegin, markersAtBegin, outboxAtBegin;
        return DatabaseError;
      }
      return if fault == LosesReply then DatabaseError else Applied;
    }
  }

  // ----- Redelivery equivalence -----

  /** A delivery of an envelope, with the UUID the handler would draw for an emission. */
  datatype Delivery = Delivery(env: Envelope, emitKey: Id)

  function Deliver(db: OrderDb, ds: seq<Delivery>): OrderDb
    decreases |ds|
  {
    if ds == [] then db else Deliver(HandleEvent(db, ds[0].env, ds[0].emitKey).0, ds[1..])
  }

  /** The deliveries at which the message was accepted for the first time. */
  function FirstAcceptances(db: OrderDb, ds: seq<Delivery>): seq<Delivery>
    decreases |ds|
  {
    if ds == [] then []
    else
      var r := HandleEvent(db, ds[0].env, ds[0].emitKey);
      (if r.1.IsFirstAcceptance() then [ds[0]] else []) + FirstAcceptances(r.0, ds[1..])
  }

  predicate DistinctKeys(ds: seq<Delivery>) {
    forall i, j :: 0 <= i < j < |ds| ==> ds[i].env.key != ds[j].env.key
  }

  /** Every accepted message is accepted once, and never one that already was. */
  lemma {:induction false} FirstAcceptancesAreDistinct(db: OrderDb, ds: seq<Delivery>)
    ensures DistinctKeys(FirstAcceptances(db, ds))
    ensures forall d :: d in FirstAcceptances(db, ds) ==> d in ds && d.env.key !in db.markers
    decreases |ds|
  {
    if ds != [] {
      FirstAcceptancesAreDistinct(HandleEvent(db, ds[0].env, ds[0].emitKey).0, ds[1..]);
    }
  }

  /** Duplicates, rewinds, parked retries and drops leave no trace in any table. */
  lemma {:induction false} RedeliveryEquivalence(db: OrderDb, ds: seq<Delivery>)
    ensures Deliver(db, ds) == Deliver(db, FirstAcceptances(db, ds))
    ensures Deliver(db, ds).markers == db.markers + set d | d in FirstAcceptances(db, ds) :: d.env.key
    decreases |ds|
  {
    if ds != [] {
      var r := HandleEvent(db, ds[0].env, ds[0].emitKey);
      var rest := FirstAcceptances(r.0, ds[1..]);
      RedeliveryEquivalence(r.0, ds[1..]);
      if r.1.IsFirstAcceptance() {
        assert FirstAcceptances(db, ds) == [ds[0]] + rest;
        assert ([ds[0]] + rest)[1..] == rest;
      } else {
        assert FirstAcceptances(db, ds) == rest;
      }
    }
  }
}
