/** What holds in every reachable state, under every interleaving and every tolerated fault. */
module SagaSafety {
  import opened Messages
  import opened OrderDomain
  import opened Orders
  import opened Payments
  import opened Inventory
  import opened SagaSystem
  import opened SagaView
  import opened SagaInvariant
  import opened OrderSteps
  import opened PaymentSteps
  import opened InventorySteps
  import opened BrokerSteps
  import opened Ledger

  // ----- The invariant holds along every run -----

  lemma InitInv(s: Sys)
    requires Init(s)
    ensures Inv(s)
  {
    forall c ensures Outbox(s, c) == [] {}
    forall id ensures ViewOf(s, id) == BLANK {}
    forall sku | sku in s.inventory.stock ensures HeldQuantity(s.inventory.reservations, sku) == 0 {
      assert Weights(s.inventory.reservations, sku) == map[];
    }
  }

  lemma StepKeeps(s: Sys, st: Step)
    requires Inv(s) && Enabled(s, st)
    ensures Inv(Next(s, st))
  {
    match st
    case CreateStep(id, sku, quantity, amount, key) => CreateKeeps(s, id, sku, quantity, amount, key);
    case SendStep(svc, row) => SendStepKeeps(s, svc, row);
    case SendFailsStep(svc, row) =>
      var r := Outbox(s, svc)[row];
      BookkeepingKeeps(s, Next(s, st), svc, row, r.(attempts := r.attempts + 1));
    case MarkStep(svc, row) =>
      BookkeepingKeeps(s, Next(s, st), svc, row, Outbox(s, svc)[row].(status := RowPublished));
    case OrderStep(topic, key) => OrderStepKeeps(s, topic, key);
    case CreatedStep(forceFailure, key) => CreatedStepKeeps(s, forceFailure, key);
    case ReservationFailedStep(key) => ReservationFailedStepKeeps(s, key);
    case CancelledStep(key) => CancelledStepKeeps(s, key);
    case CommitStep(svc, topic, upTo) => CommitStepKeeps(s, svc, topic, upTo);
    case RewindStep(svc, topic, to) => RewindStepKeeps(s, svc, topic, to);
    case ExecuteStep(saga, last, rid, key) => ExecuteStepKeeps(s, saga, last, rid, key);
    case DropStep(saga) => DropStepKeeps(s, saga);
  }

  lemma {:induction false} RunKeeps(s: Sys, steps: seq<Step>)
    requires Inv(s) && CanRun(s, steps)
    ensures Inv(Run(s, steps))
    decreases |steps|
  {
    if steps != [] {
      StepKeeps(s, steps[0]);
      RunKeeps(Next(s, steps[0]), steps[1..]);
    }
  }

  lemma ReachableInv(s0: Sys, steps: seq<Step>)
    requires Init(s0) && CanRun(s0, steps)
    ensures Inv(Run(s0, steps))
  {
    InitInv(s0);
    RunKeeps(s0, steps);
  }

  // ----- Outcomes -----

  /** Paid, and holding exactly the stock the order asked for. */
  predicate PaidAndHeld(s: Sys, id: Id)
    requires id in s.order.orders
  {
    var o := s.order.orders[id];
    && id in s.payment.payments && s.payment.payments[id] == PaymentRow(Processed, o.amount)
    && HasReserved(s.inventory.reservations, id)
    && s.inventory.reservations[id].sku == o.sku
    && s.inventory.reservations[id].quantity == o.quantity
  }

  lemma ConfirmedIsPaidAndHeld(s0: Sys, steps: seq<Step>, id: Id)
    requires Init(s0) && CanRun(s0, steps)
    ensures var s := Run(s0, steps);
            id in s.order.orders && s.order.orders[id].status == Confirmed ==> PaidAndHeld(s, id)
  {
    ReachableInv(s0, steps);
    assert ViewOk(ViewOf(Run(s0, steps), id), id);
  }

  lemma CancelledHoldsNoStock(s0: Sys, steps: seq<Step>, id: Id)
    requires Init(s0) && CanRun(s0, steps)
    ensures var s := Run(s0, steps);
            id in s.order.orders && s.order.orders[id].status == Cancelled ==> id !in s.inventory.reservations
  {
    ReachableInv(s0, steps);
    assert ViewOk(ViewOf(Run(s0, steps), id), id);
  }

  // ----- A refund is never swallowed -----

  /** A message on its way to `svc`: in its producer's outbox, or in the unread part of its topic. */
  ghost predicate Owed(s: Sys, svc: Service, e: Envelope) {
    || (exists i :: 0 <= i < |Outbox(s, Producer(e.topic))|
          && Outbox(s, Producer(e.topic))[i].env == e && Outbox(s, Producer(e.topic))[i].status == RowPending)
    || (exists i :: Position(s, svc, e.topic) <= i < |Log(s, e.topic)| && Log(s, e.topic)[i] == e)
  }

  /** An emitted message that its consumer has not accepted is still on its way. */
  lemma UnhandledIsOwed(s: Sys, svc: Service, id: Id, t: Topic, k: Id)
    requires Inv(s) && Consumes(svc, t) && k in Emitted(Outbox(s, Producer(t)), id, t)
    ensures k in s.issued
    ensures var e := s.issued[k];
            e.key == k && e.saga == id && e.topic == t && (HandledBy(s, svc, e) || Owed(s, svc, e))
  {
    var rows := Outbox(s, Producer(t));
    assert TableOk(s.issued, rows, Producer(t));
    var i := EmittedFromRow(rows, id, t, k);
    var e := rows[i].env;
    assert Registered(s.issued, e);
    if rows[i].status == RowPublished {
      assert e in Log(s, t);
      var j :| 0 <= j < |Log(s, t)| && Log(s, t)[j] == e;
      if j < Position(s, svc, t) {
        assert HandledBy(s, svc, Log(s, t)[j]);
      }
    }
  }

  /** The payment of a CANCELLED order failed or was refunded, or the refusal that refunds it is owed to Payment. */
  ghost predicate RefundOwedOrDone(s: Sys, id: Id) {
    id in s.order.orders && s.order.orders[id].status == Cancelled ==>
      && id in s.payment.payments
      && (|| s.payment.payments[id].status == Failed
          || s.payment.payments[id].status == Refunded
          || exists e: Envelope :: e.saga == id && e.topic == TopicReservationFailed && Owed(s, PaymentService, e))
  }

  /** CANCELLED does not imply refunded (PENDING + reservation_failed cancels at once), but the refund is never lost. */
  lemma RefundIsNeverSwallowed(s0: Sys, steps: seq<Step>, id: Id)
    requires Init(s0) && CanRun(s0, steps)
    ensures RefundOwedOrDone(Run(s0, steps), id)
  {
    var s := Run(s0, steps);
    ReachableInv(s0, steps);
    var v := ViewOf(s, id);
    assert ViewOk(v, id);
    if id in s.order.orders && s.order.orders[id].status == Cancelled && s.payment.payments[id].status == Processed {
      var ks := Emitted(s.inventory.outbox, id, TopicReservationFailed);
      assert |ks| == 1 && ks[0] !in s.payment.markers;
      assert Outbox(s, Producer(TopicReservationFailed)) == s.inventory.outbox;
      UnhandledIsOwed(s, PaymentService, id, TopicReservationFailed, ks[0]);
    }
  }

  /** A charge is refunded exactly when Payment has accepted the refusal of that saga's stock. */
  lemma RefundedIsExact(s0: Sys, steps: seq<Step>, id: Id)
    requires Init(s0) && CanRun(s0, steps)
    ensures var s := Run(s0, steps);
            (id in s.payment.payments && s.payment.payments[id].status == Refunded)
            <==> exists k :: k in Emitted(s.inventory.outbox, id, TopicReservationFailed) && k in s.payment.markers
  {
    var s := Run(s0, steps);
    ReachableInv(s0, steps);
    assert ViewOk(ViewOf(s, id), id);
    RefundedView(ViewOf(s, id), id);
    assert ViewOf(s, id).payment == Lookup(s.payment.payments, id);
    var ks := Emitted(s.inventory.outbox, id, TopicReservationFailed);
    if ViewOf(s, id).refusedAtPayment.Done() {
      assert ks[0] in ks && ks[0] in s.payment.markers;
    }
  }

  lemma RefundedView(v: View, id: Id)
    requires ViewOk(v, id)
    ensures v.payment.Some? && v.payment.value.status == Refunded <==> v.refusedAtPayment.Done()
    ensures !v.refusedAtPayment.Many?
  {
  }

  lemma CancellingView(v: View, id: Id, t: Topic)
    requires ViewOk(v, id) && v.order.Some? && Consumes(OrderService, t) && EvAt(v, t) == Once(false)
    requires TakesEffect(v.order.value.status, TopicTrigger(t).value)
    requires After(v.order.value.status, TopicTrigger(t).value) == Cancelled
    ensures v.payment.Some?
    ensures v.payment.value.status in {Failed, Refunded}
       <==> !(t == TopicReservationFailed && v.order.value.status == Pending && v.refusedAtPayment == Once(false))
  {
    assert EvAt(v, TopicPaymentFailed) == v.failed && EvAt(v, TopicPaymentRefunded) == v.refunded;
    assert EvAt(v, TopicReservationFailed) == v.refused;
  }

  /**
   The moment at which "CANCELLED implies refunded" fails. Whenever Order is about to cancel an order, its
   charge has been undone already, unless a refusal of stock finds the order still PENDING and Payment has
   not accepted that refusal yet.
   */
  lemma CancelledUnrefundedIsExact(s0: Sys, steps: seq<Step>, t: Topic, key: Id)
    requires Init(s0) && CanRun(s0, steps) && Enabled(Run(s0, steps), OrderStep(t, key))
    requires var s := Run(s0, steps);
             var id := Head(s, OrderService, t).saga;
             && id in s.order.orders && s.order.orders[id].status != Cancelled
             && id in Next(s, OrderStep(t, key)).order.orders
             && Next(s, OrderStep(t, key)).order.orders[id].status == Cancelled
    ensures var s := Run(s0, steps);
            var e := Head(s, OrderService, t);
            && e.saga in s.payment.payments
            && (s.payment.payments[e.saga].status in {Failed, Refunded}
                <==> !(&& t == TopicReservationFailed && s.order.orders[e.saga].status == Pending
                       && e.key !in s.payment.markers))
  {
    ReachableInv(s0, steps);
    CancellingHead(Run(s0, steps), t, key);
  }

  /** An event that cancels an order is accepted for the first time and takes effect. */
  lemma CancellingEvent(db: OrderDb, e: Envelope, key: Id)
    requires e.saga in db.orders && db.orders[e.saga].status != Cancelled
    requires var db' := HandleEvent(db, e, key).0; e.saga in db'.orders && db'.orders[e.saga].status == Cancelled
    ensures e.key !in db.markers && TopicTrigger(e.topic).Some?
    ensures var cur, trigger := db.orders[e.saga].status, TopicTrigger(e.topic).value;
            TakesEffect(cur, trigger) && After(cur, trigger) == Cancelled
  {
    AcceptedEffect(db, e, key);
  }

  /** The saga's payment when such an event is at hand. */
  lemma CancellingRecord(s: Sys, t: Topic, e: Envelope)
    requires Inv(s) && Consumes(OrderService, t) && RecordOk(s, t, e) && e.key !in s.order.markers
    requires e.saga in s.order.orders
    requires var cur, trigger := s.order.orders[e.saga].status, TopicTrigger(t).value;
             TakesEffect(cur, trigger) && After(cur, trigger) == Cancelled
    ensures e.saga in s.payment.payments
    ensures s.payment.payments[e.saga].status in {Failed, Refunded}
       <==> !(t == TopicReservationFailed && s.order.orders[e.saga].status == Pending && e.key !in s.payment.markers)
  {
    OrderKnowsTheRecord(s, t, e);
    CancellingView(ViewOf(s, e.saga), e.saga, t);
    if t == TopicReservationFailed {
      assert Emitted(s.inventory.outbox, e.saga, t) == [e.key];
    }
  }

  lemma CancellingHead(s: Sys, t: Topic, key: Id)
    requires Inv(s) && Enabled(s, OrderStep(t, key))
    requires var id := Head(s, OrderService, t).saga;
             && id in s.order.orders && s.order.orders[id].status != Cancelled
             && id in Next(s, OrderStep(t, key)).order.orders
             && Next(s, OrderStep(t, key)).order.orders[id].status == Cancelled
    ensures var e := Head(s, OrderService, t);
            && e.saga in s.payment.payments
            && (s.payment.payments[e.saga].status in {Failed, Refunded}
                <==> !(&& t == TopicReservationFailed && s.order.orders[e.saga].status == Pending
                       && e.key !in s.payment.markers))
  {
    var e := HeadIsEmitted(s, OrderService, t);
    CancellingEvent(s.order, e, key);
    CancellingRecord(s, t, e);
  }

  // ----- The services never send each other anything unexpected -----

  lemma NothingIsRejected(s0: Sys, steps: seq<Step>, t: Topic, i: nat, key: Id)
    requires Init(s0) && CanRun(s0, steps)
    ensures var s := Run(s0, steps);
            i < |Log(s, t)| && Consumes(OrderService, t) ==>
              HandleEvent(s.order, Log(s, t)[i], key).1 in {Applied, Unchanged, Duplicate, Premature}
    ensures var s := Run(s0, steps);
            i < |Log(s, t)| && t == TopicOrderCancelled ==>
              !Release(s.inventory, Log(s, t)[i].saga, Log(s, t)[i].key, OrderCancelledConsumer, key).1.released
  {
    var s := Run(s0, steps);
    ReachableInv(s0, steps);
    if i < |Log(s, t)| {
      assert RecordOk(s, t, Log(s, t)[i]);
      if Consumes(OrderService, t) {
        OrderNeverRejects(s, t, Log(s, t)[i], key);
      }
      if t == TopicOrderCancelled {
        CancelledHoldsNothing(s, Log(s, t)[i], key);
      }
    }
  }

  /** inventory.released is never emitted. */
  lemma NothingIsReleased(s0: Sys, steps: seq<Step>, i: nat)
    requires Init(s0) && CanRun(s0, steps)
    ensures var rows := Run(s0, steps).inventory.outbox;
            i < |rows| ==> rows[i].env.topic != TopicInventoryReleased
  {
    var s := Run(s0, steps);
    ReachableInv(s0, steps);
    if i < |s.inventory.outbox| {
      var e := s.inventory.outbox[i].env;
      assert ViewOk(ViewOf(s, e.saga), e.saga);
      EmittedHasRow(s.inventory.outbox, i);
    }
  }

  // ----- Exactly-once emission -----

  /** Order: one order.created per order, one order.cancelled exactly if it is CANCELLED. */
  lemma OrderEmitsOnce(s0: Sys, steps: seq<Step>, id: Id)
    requires Init(s0) && CanRun(s0, steps)
    ensures var db := Run(s0, steps).order;
            && |Emitted(db.outbox, id, TopicOrderCreated)| == (if id in db.orders then 1 else 0)
            && |Emitted(db.outbox, id, TopicOrderCancelled)|
               == (if id in db.orders && db.orders[id].status == Cancelled then 1 else 0)
  {
    ReachableInv(s0, steps);
    assert ViewOk(ViewOf(Run(s0, steps), id), id);
  }

  /** Payment: one of payment.processed and payment.failed per row, payment.refunded exactly if REFUNDED. */
  lemma PaymentEmitsOnce(s0: Sys, steps: seq<Step>, id: Id)
    requires Init(s0) && CanRun(s0, steps)
    ensures var db := Run(s0, steps).payment;
            var row := Lookup(db.payments, id);
            && |Emitted(db.outbox, id, TopicPaymentFailed)|
               == (if row.Some? && row.value.status == Failed then 1 else 0)
            && |Emitted(db.outbox, id, TopicPaymentProcessed)|
               == (if row.Some? && row.value.status != Failed then 1 else 0)
            && |Emitted(db.outbox, id, TopicPaymentRefunded)|
               == (if row.Some? && row.value.status == Refunded then 1 else 0)
  {
    ReachableInv(s0, steps);
    assert ViewOk(ViewOf(Run(s0, steps), id), id);
  }

  /** Inventory: inventory.reserved exactly with a reservation; one outcome per used reserve key. */
  lemma InventoryEmitsOnce(s0: Sys, steps: seq<Step>, id: Id)
    requires Init(s0) && CanRun(s0, steps)
    ensures var s := Run(s0, steps);
            var reserved := |Emitted(s.inventory.outbox, id, TopicInventoryReserved)|;
            var refused := |Emitted(s.inventory.outbox, id, TopicReservationFailed)|;
            var keys := Emitted(s.order.outbox, id, TopicOrderCreated);
            && reserved == (if id in s.inventory.reservations then 1 else 0)
            && reserved + refused == (if |keys| == 1 && (keys[0], ReserveConsumer) in s.inventory.markers then 1 else 0)
  {
    ReachableInv(s0, steps);
    InventoryEmitted(Run(s0, steps), id);
  }

  lemma InventoryEmitted(s: Sys, id: Id)
    requires ViewOk(ViewOf(s, id), id)
    ensures var reserved := |Emitted(s.inventory.outbox, id, TopicInventoryReserved)|;
            var refused := |Emitted(s.inventory.outbox, id, TopicReservationFailed)|;
            var keys := Emitted(s.order.outbox, id, TopicOrderCreated);
            && reserved == (if id in s.inventory.reservations then 1 else 0)
            && reserved + refused == (if |keys| == 1 && (keys[0], ReserveConsumer) in s.inventory.markers then 1 else 0)
  {
  }

  // ----- The refund event -----

  /** A payment.refunded event reports 0.0, so it reports the charge exactly when the charge was 0.0. */
  lemma RefundReportsZero(s0: Sys, steps: seq<Step>, i: nat)
    requires Init(s0) && CanRun(s0, steps)
    ensures var s := Run(s0, steps);
            i < |s.payment.outbox| && s.payment.outbox[i].env.topic == TopicPaymentRefunded ==>
              var e := s.payment.outbox[i].env;
              && e.saga in s.payment.payments && s.payment.payments[e.saga].status == Refunded
              && (e.data == PaymentData(s.payment.payments[e.saga].amount)
                  <==> s.payment.payments[e.saga].amount == 0.0)
  {
    var s := Run(s0, steps);
    ReachableInv(s0, steps);
    if i < |s.payment.outbox| && s.payment.outbox[i].env.topic == TopicPaymentRefunded {
      var e := s.payment.outbox[i].env;
      assert TableOk(s.issued, Outbox(s, PaymentService), PaymentService);
      assert Registered(s.issued, Outbox(s, PaymentService)[i].env);
      EmittedHasRow(s.payment.outbox, i);
      assert ViewOk(ViewOf(s, e.saga), e.saga);
    }
  }
}
