/** What the events say is what the tables say, and what each step decides is decided on the order's own figures. */
module SagaReports {
  import opened Messages
  import opened OrderDomain
  import opened Orders
  import opened Payments
  import opened Inventory
  import opened SagaSystem
  import opened SagaView
  import opened SagaInvariant
  import opened InventorySteps
  import opened SagaSafety

  // ----- Events tell the truth -----

  /** The tables bear out what an event says. (A refund says 0.0; see RefundReportsZero.) */
  ghost predicate Reports(s: Sys, e: Envelope) {
    var o, p, r := Lookup(s.order.orders, e.saga), Lookup(s.payment.payments, e.saga),
                   Lookup(s.inventory.reservations, e.saga);
    match e.topic
    case TopicOrderCreated => o.Some? && e.data == OrderCreatedData(o.value.sku, o.value.quantity, o.value.amount)
    case TopicOrderCancelled => o.Some? && o.value.status == Cancelled && e.data == OrderCancelledData
    case TopicPaymentProcessed => p.Some? && p.value.status != Failed && e.data == PaymentData(p.value.amount)
    case TopicPaymentFailed => p.Some? && p.value.status == Failed && e.data == PaymentData(p.value.amount)
    case TopicPaymentRefunded => p.Some? && p.value.status == Refunded && e.data == PaymentData(0.0)
    case TopicInventoryReserved => r.Some? && e.data == ReservedData(r.value.sku, r.value.quantity, r.value.id)
    case TopicReservationFailed => o.Some? && e.data == ReservationFailedData(o.value.sku, o.value.quantity)
    case TopicInventoryReleased => r.Some? && r.value.state == Released && e.data == ReleasedData
  }

  ghost predicate AllReport(s: Sys) {
    forall k :: k in s.issued ==> Reports(s, s.issued[k])
  }

  /** Figures that have been announced never change. */
  ghost predicate OrdersStay(db: OrderDb, db': OrderDb) {
    forall id :: id in db.orders ==>
      && id in db'.orders
      && db'.orders[id] == db.orders[id].(status := db'.orders[id].status)
      && (db.orders[id].status == Cancelled ==> db'.orders[id].status == Cancelled)
  }

  ghost predicate PaymentsStay(db: PaymentDb, db': PaymentDb) {
    forall id :: id in db.payments ==>
      && id in db'.payments
      && db'.payments[id].amount == db.payments[id].amount
      && (db.payments[id].status == db'.payments[id].status
          || (db.payments[id].status == Processed && db'.payments[id].status == Refunded))
  }

  ghost predicate ReservationsStay(db: InventoryDb, db': InventoryDb) {
    forall id :: id in db.reservations ==>
      && id in db'.reservations
      && db'.reservations[id] == db.reservations[id].(state := db'.reservations[id].state)
      && (db.reservations[id].state == Released ==> db'.reservations[id].state == Released)
  }

  ghost predicate Stays(s: Sys, s': Sys) {
    OrdersStay(s.order, s'.order) && PaymentsStay(s.payment, s'.payment) && ReservationsStay(s.inventory, s'.inventory)
  }

  lemma ReportStays(s: Sys, s': Sys, e: Envelope)
    requires Stays(s, s') && Reports(s, e)
    ensures Reports(s', e)
  {
  }

  /** A step that keeps the figures and issues at most one event, a true one, keeps all events true. */
  lemma StaysTrue(s: Sys, s': Sys, key: Id)
    requires AllReport(s) && Stays(s, s')
    requires s'.issued == s.issued
             || (key in s'.issued && s'.issued == s.issued[key := s'.issued[key]] && Reports(s', s'.issued[key]))
    ensures AllReport(s')
  {
    forall k | k in s'.issued ensures Reports(s', s'.issued[k]) {
      if k in s.issued && s'.issued[k] == s.issued[k] {
        ReportStays(s, s', s.issued[k]);
      }
    }
  }

  /** A row that a transaction announces is the event it issues. */
  lemma AnnouncedIsIssued(issued: map<Id, Envelope>, before: seq<Row>, after: seq<Row>, env: Envelope)
    requires Announces(before, after, env)
    ensures Register(issued, before, after) == issued[env.key := env]
  {
  }

  lemma CreateStaysTrue(s: Sys, id: Id, sku: Sku, quantity: int, amount: real, key: Id)
    requires AllReport(s) && Enabled(s, CreateStep(id, sku, quantity, amount, key))
    ensures AllReport(Next(s, CreateStep(id, sku, quantity, amount, key)))
  {
    var s' := Next(s, CreateStep(id, sku, quantity, amount, key));
    CreatedIsExact(s.order, id, sku, quantity, amount, key);
    AnnouncedIsIssued(s.issued, s.order.outbox, s'.order.outbox,
                      Envelope(key, id, TopicOrderCreated, OrderCreatedData(sku, quantity, amount)));
    StaysTrue(s, s', key);
  }

  /** An event at Order keeps every order's figures, and announces only that an order is now CANCELLED. */
  lemma HandlingKeepsOrders(db: OrderDb, e: Envelope, key: Id)
    ensures var db' := HandleEvent(db, e, key).0;
            && OrdersStay(db, db')
            && (|| db'.outbox == db.outbox
                || (&& Announces(db.outbox, db'.outbox, Envelope(key, e.saga, TopicOrderCancelled, OrderCancelledData))
                    && e.saga in db'.orders && db'.orders[e.saga].status == Cancelled))
  {
    if HandleEvent(db, e, key).1.IsFirstAcceptance() {
      AcceptedEffect(db, e, key);
      assert db.outbox + [] == db.outbox;
    }
  }

  lemma OrderStaysTrue(s: Sys, t: Topic, key: Id)
    requires AllReport(s) && Enabled(s, OrderStep(t, key))
    ensures AllReport(Next(s, OrderStep(t, key)))
  {
    var s', e := Next(s, OrderStep(t, key)), Head(s, OrderService, t);
    HandlingKeepsOrders(s.order, e, key);
    if s'.order.outbox != s.order.outbox {
      AnnouncedIsIssued(s.issued, s.order.outbox, s'.order.outbox,
                        Envelope(key, e.saga, TopicOrderCancelled, OrderCancelledData));
    }
    StaysTrue(s, s', key);
  }

  /** The head of a topic was issued, so what it says is true. */
  lemma HeadReports(s: Sys, svc: Service, t: Topic)
    requires Inv(s) && AllReport(s) && HasNext(s, svc, t)
    ensures Reports(s, Head(s, svc, t)) && Head(s, svc, t).topic == t
  {
    assert RecordOk(s, t, Log(s, t)[Position(s, svc, t)]);
  }

  lemma CreatedStaysTrue(s: Sys, forceFailure: bool, key: Id)
    requires AllReport(s) && Enabled(s, CreatedStep(forceFailure, key))
    requires Head(s, PaymentService, TopicOrderCreated).data.OrderCreatedData?
    ensures AllReport(Next(s, CreatedStep(forceFailure, key)))
  {
    var s', e := Next(s, CreatedStep(forceFailure, key)), Head(s, PaymentService, TopicOrderCreated);
    ChargeIsExact(s.payment, e, forceFailure, key);
    if e.saga !in s.payment.payments {
      AnnouncedIsIssued(s.issued, s.payment.outbox, s'.payment.outbox, s'.payment.outbox[|s.payment.outbox|].env);
    }
    StaysTrue(s, s', key);
  }

  lemma RefundStaysTrue(s: Sys, key: Id)
    requires AllReport(s) && Enabled(s, ReservationFailedStep(key))
    requires Head(s, PaymentService, TopicReservationFailed).data.ReservationFailedData?
    ensures AllReport(Next(s, ReservationFailedStep(key)))
  {
    var s', e := Next(s, ReservationFailedStep(key)), Head(s, PaymentService, TopicReservationFailed);
    var refund := Envelope(key, e.saga, TopicPaymentRefunded, PaymentData(0.0));
    CompensationIsExact(s.payment, e, key);
    RefundIsExact(s.payment, e.saga, e.key, refund);
    if s'.payment.outbox != s.payment.outbox {
      AnnouncedIsIssued(s.issued, s.payment.outbox, s'.payment.outbox, refund);
    }
    StaysTrue(s, s', key);
  }

  lemma ReleaseStaysTrue(s: Sys, key: Id)
    requires AllReport(s) && Enabled(s, CancelledStep(key))
    ensures AllReport(Next(s, CancelledStep(key)))
  {
    var s', e := Next(s, CancelledStep(key)), Head(s, InventoryService, TopicOrderCancelled);
    ReleaseIsExact(s.inventory, e.saga, e.key, OrderCancelledConsumer, key);
    StaysTrue(s, s', key);
  }

  /** A saga whose reserve key is unused holds no reservation. */
  lemma UnusedHoldsNothing(s: Sys, saga: Id)
    requires Inv(s) && saga in s.calls && (s.calls[saga].key, ReserveConsumer) !in s.inventory.markers
    ensures saga !in s.inventory.reservations
  {
    CallIsTheOrders(s, saga);
    assert ViewOk(ViewOf(s, saga), saga);
  }

  lemma FirstExecutionStaysTrue(s: Sys, saga: Id, last: bool, rid: Id, key: Id)
    requires AllReport(s) && Enabled(s, ExecuteStep(saga, last, rid, key))
    requires saga in s.order.orders && saga !in s.inventory.reservations
    requires var q, o := s.calls[saga], s.order.orders[saga];
             && (q.key, ReserveConsumer) !in s.inventory.markers
             && q.saga == saga && q.sku == o.sku && q.quantity == o.quantity
    ensures AllReport(Next(s, ExecuteStep(saga, last, rid, key)))
  {
    var s', q := Next(s, ExecuteStep(saga, last, rid, key)), s.calls[saga];
    FirstReserveIsExact(s.inventory, q.saga, q.key, q.sku, q.quantity, rid, key);
    AnnouncedIsIssued(s.issued, s.inventory.outbox, s'.inventory.outbox,
                      s'.inventory.outbox[|s.inventory.outbox|].env);
    StaysTrue(s, s', key);
  }

  lemma ExecuteStaysTrue(s: Sys, saga: Id, last: bool, rid: Id, key: Id)
    requires Inv(s) && AllReport(s) && Enabled(s, ExecuteStep(saga, last, rid, key))
    ensures AllReport(Next(s, ExecuteStep(saga, last, rid, key)))
  {
    var q := s.calls[saga];
    CallIsTheOrders(s, saga);
    if (q.key, ReserveConsumer) in s.inventory.markers {
      RepeatedReserveIsExact(s.inventory, q.saga, q.key, q.sku, q.quantity, rid, key);
      StaysTrue(s, Next(s, ExecuteStep(saga, last, rid, key)), key);
    } else {
      UnusedHoldsNothing(s, saga);
      FirstExecutionStaysTrue(s, saga, last, rid, key);
    }
  }

  ghost predicate SameTables(s: Sys, s': Sys) {
    && s'.order.orders == s.order.orders && s'.payment.payments == s.payment.payments
    && s'.inventory.reservations == s.inventory.reservations && s'.issued == s.issued
  }

  lemma OutboxKeepsTables(s: Sys, svc: Service, rows: seq<Row>)
    ensures SameTables(s, WithOutbox(s, svc, rows))
  {
  }

  lemma MarkKeepsTables(s: Sys, svc: Service, row: nat)
    requires Enabled(s, MarkStep(svc, row))
    ensures SameTables(s, Next(s, MarkStep(svc, row)))
  {
    OutboxKeepsTables(s, svc, Outbox(s, svc)[row := Outbox(s, svc)[row].(status := RowPublished)]);
  }

  lemma SendFailureKeepsTables(s: Sys, svc: Service, row: nat)
    requires Enabled(s, SendFailsStep(svc, row))
    ensures SameTables(s, Next(s, SendFailsStep(svc, row)))
  {
    var r := Outbox(s, svc)[row];
    OutboxKeepsTables(s, svc, Outbox(s, svc)[row := r.(attempts := r.attempts + 1)]);
  }

  /** What changes neither the figures nor the events keeps the events true. */
  lemma SameTablesStayTrue(s: Sys, s': Sys)
    requires AllReport(s) && SameTables(s, s')
    ensures AllReport(s')
  {
    forall k | k in s'.issued ensures Reports(s', s'.issued[k]) {
      assert Reports(s, s.issued[k]);
    }
  }

  lemma StepStaysTrue(s: Sys, st: Step)
    requires Inv(s) && AllReport(s) && Enabled(s, st)
    ensures AllReport(Next(s, st))
  {
    match st
    case CreateStep(id, sku, quantity, amount, key) => CreateStaysTrue(s, id, sku, quantity, amount, key);
    case OrderStep(t, key) => OrderStaysTrue(s, t, key);
    case CreatedStep(forceFailure, key) =>
      HeadReports(s, PaymentService, TopicOrderCreated);
      CreatedStaysTrue(s, forceFailure, key);
    case ReservationFailedStep(key) =>
      HeadReports(s, PaymentService, TopicReservationFailed);
      RefundStaysTrue(s, key);
    case CancelledStep(key) => ReleaseStaysTrue(s, key);
    case ExecuteStep(saga, last, rid, key) => ExecuteStaysTrue(s, saga, last, rid, key);
    case MarkStep(svc, row) =>
      MarkKeepsTables(s, svc, row);
      SameTablesStayTrue(s, Next(s, st));
    case SendFailsStep(svc, row) =>
      SendFailureKeepsTables(s, svc, row);
      SameTablesStayTrue(s, Next(s, st));
    case SendStep(_, _) | CommitStep(_, _, _) | RewindStep(_, _, _) | DropStep(_) =>
      SameTablesStayTrue(s, Next(s, st));
  }

  lemma {:induction false} RunStaysTrue(s: Sys, steps: seq<Step>)
    requires Inv(s) && AllReport(s) && CanRun(s, steps)
    ensures AllReport(Run(s, steps))
    decreases |steps|
  {
    if steps != [] {
      StepKeeps(s, steps[0]);
      StepStaysTrue(s, steps[0]);
      RunStaysTrue(Next(s, steps[0]), steps[1..]);
    }
  }

  /** In every reachable state, every row of every outbox says what the tables say. */
  lemma EveryRowIsTrue(s0: Sys, steps: seq<Step>, svc: Service, i: nat)
    requires Init(s0) && CanRun(s0, steps) && i < |Outbox(Run(s0, steps), svc)|
    ensures Reports(Run(s0, steps), Outbox(Run(s0, steps), svc)[i].env)
  {
    var s := Run(s0, steps);
    InitInv(s0);
    ReachableInv(s0, steps);
    RunStaysTrue(s0, steps);
    assert TableOk(s.issued, Outbox(s, svc), svc);
    assert Registered(s.issued, Outbox(s, svc)[i].env);
  }

  /** And so does every record of every topic. */
  lemma EveryRecordIsTrue(s0: Sys, steps: seq<Step>, t: Topic, i: nat)
    requires Init(s0) && CanRun(s0, steps) && i < |Log(Run(s0, steps), t)|
    ensures Reports(Run(s0, steps), Log(Run(s0, steps), t)[i])
  {
    var s := Run(s0, steps);
    InitInv(s0);
    ReachableInv(s0, steps);
    RunStaysTrue(s0, steps);
    assert RecordOk(s, t, Log(s, t)[i]);
  }

  // ----- Decisions are taken on the order's figures -----

  /**
   When Payment handles an order.created for the first time, it charges the amount of the order, and asks for
   the order's own sku and quantity exactly if the charge is approved.
   */
  lemma ChargesTheOrder(s0: Sys, steps: seq<Step>, forceFailure: bool, key: Id)
    requires Init(s0) && CanRun(s0, steps) && Enabled(Run(s0, steps), CreatedStep(forceFailure, key))
    requires Head(Run(s0, steps), PaymentService, TopicOrderCreated).saga !in Run(s0, steps).payment.payments
    ensures var s := Run(s0, steps);
            var s' := Next(s, CreatedStep(forceFailure, key));
            var id := Head(s, PaymentService, TopicOrderCreated).saga;
            && id in s.order.orders && id in s'.payment.payments
            && var o, p := s.order.orders[id], s'.payment.payments[id];
               && p.amount == o.amount
               && (p.status == Processed <==> !forceFailure && (o.amount <= 66.055 || o.amount >= 66.065))
               && (p.status == Failed <==> p.status != Processed)
               && (id in s'.calls <==> p.status == Processed)
               && (id in s'.calls ==> s'.calls[id].sku == o.sku && s'.calls[id].quantity == o.quantity)
  {
    var s := Run(s0, steps);
    var e := Head(s, PaymentService, TopicOrderCreated);
    InitInv(s0);
    ReachableInv(s0, steps);
    RunStaysTrue(s0, steps);
    HeadReports(s, PaymentService, TopicOrderCreated);
    ChargeIsExact(s.payment, e, forceFailure, key);
    assert ViewOk(ViewOf(s, e.saga), e.saga);
  }

  /**
   When the reserve call of an order is executed for the first time, the order gets its stock exactly if stock
   covers what it ordered, and else a refusal.
   */
  lemma CoveredIsReserved(s0: Sys, steps: seq<Step>, saga: Id, last: bool, rid: Id, key: Id)
    requires Init(s0) && CanRun(s0, steps) && Enabled(Run(s0, steps), ExecuteStep(saga, last, rid, key))
    requires var s := Run(s0, steps); (s.calls[saga].key, ReserveConsumer) !in s.inventory.markers
    ensures var s := Run(s0, steps);
            var s' := Next(s, ExecuteStep(saga, last, rid, key));
            && saga in s.order.orders
            && var o := s.order.orders[saga];
               && (saga in s'.inventory.reservations <==> Covers(s.inventory.stock, o.sku, o.quantity))
               && if Covers(s.inventory.stock, o.sku, o.quantity) then
                    && s'.inventory.reservations[saga] == Reservation(rid, o.sku, o.quantity, Reserved)
                    && Moved(s.inventory.stock, s'.inventory.stock, o.sku, o.quantity)
                    && Announces(s.inventory.outbox, s'.inventory.outbox,
                                 Envelope(key, saga, TopicInventoryReserved, ReservedData(o.sku, o.quantity, rid)))
                  else
                    && s'.inventory.stock == s.inventory.stock
                    && Announces(s.inventory.outbox, s'.inventory.outbox,
                                 Envelope(key, saga, TopicReservationFailed,
                                          ReservationFailedData(o.sku, o.quantity)))
  {
    var s := Run(s0, steps);
    ReachableInv(s0, steps);
    CallIsTheOrders(s, saga);
    UnusedHoldsNothing(s, saga);
    var q := s.calls[saga];
    FirstReserveIsExact(s.inventory, q.saga, q.key, q.sku, q.quantity, rid, key);
  }

  /**
   A record of order.cancelled that finds its saga's reservation still RESERVED gives the stock back, in whatever
   state the system is. (In a run it never does find one: NothingIsReleased.)
   */
  lemma CancellationReleases(s: Sys, key: Id)
    requires Enabled(s, CancelledStep(key))
    ensures var e := Head(s, InventoryService, TopicOrderCancelled);
            var db, db' := s.inventory, Next(s, CancelledStep(key)).inventory;
            && (e.key, OrderCancelledConsumer) in db'.markers
            && if (e.key, OrderCancelledConsumer) !in db.markers && e.saga in db.reservations
                  && db.reservations[e.saga].state == Reserved
               then
                 var r := db.reservations[e.saga];
                 && db'.reservations == db.reservations[e.saga := r.(state := Released)]
                 && Moved(db.stock, db'.stock, r.sku, -r.quantity)
                 && Announces(db.outbox, db'.outbox, Envelope(key, e.saga, TopicInventoryReleased, ReleasedData))
               else db' == db.(markers := db'.markers)
  {
    var e := Head(s, InventoryService, TopicOrderCancelled);
    ReleaseIsExact(s.inventory, e.saga, e.key, OrderCancelledConsumer, key);
  }
}
