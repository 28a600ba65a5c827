/** Quiescent states, and the stock sold over whole runs. */
module SagaOutcome {
  import opened Messages
  import opened OrderDomain
  import opened Orders
  import opened Payments
  import opened Inventory
  import opened SagaSystem
  import opened SagaView
  import opened SagaInvariant
  import opened OrderSteps
  import opened SagaSafety
  import opened Ledger
  import opened Sums

  // ----- Quiescence -----

  ghost predicate AllPublished(s: Sys) {
    forall svc, i :: 0 <= i < |Outbox(s, svc)| ==> Outbox(s, svc)[i].status == RowPublished
  }

  /** Outboxes drained, topics read, no reserve call in flight. */
  ghost predicate Quiescent(s: Sys) {
    && AllPublished(s)
    && (forall svc, t :: Consumes(svc, t) ==> Position(s, svc, t) == |Log(s, t)|)
    && s.calls == map[]
  }

  lemma NothingIsOwed(s: Sys, svc: Service, e: Envelope)
    requires Quiescent(s) && Consumes(svc, e.topic)
    ensures !Owed(s, svc, e)
  {
  }

  /** In a quiescent state every consumer has accepted everything emitted for it. */
  lemma QuiescentHandled(s: Sys, svc: Service, id: Id, t: Topic)
    requires Inv(s) && Quiescent(s) && Consumes(svc, t)
    requires |Emitted(Outbox(s, Producer(t)), id, t)| == 1
    ensures var k := Emitted(Outbox(s, Producer(t)), id, t)[0];
            k in s.issued && s.issued[k].key == k && s.issued[k].saga == id && s.issued[k].topic == t
            && HandledBy(s, svc, s.issued[k])
  {
    var k := Emitted(Outbox(s, Producer(t)), id, t)[0];
    UnhandledIsOwed(s, svc, id, t, k);
    NothingIsOwed(s, svc, s.issued[k]);
  }

  /** The payment decision is taken, no call is in flight, and every event has been accepted. */
  ghost predicate Settled(v: View) {
    && v.payment.Some? && v.call.None?
    && !(v.refusedAtPayment == Once(false))
    && forall t :: Consumes(OrderService, t) ==> EvAt(v, t) != Once(false)
  }

  lemma QuiescentAtOrder(s: Sys, id: Id, t: Topic)
    requires Inv(s) && Quiescent(s) && Consumes(OrderService, t)
    ensures EvAt(ViewOf(s, id), t) != Once(false)
  {
    EvAtOfView(s, id, t);
    if |Emitted(Outbox(s, Producer(t)), id, t)| == 1 {
      QuiescentHandled(s, OrderService, id, t);
    }
  }

  lemma QuiescentIsCharged(s: Sys, id: Id)
    requires Inv(s) && Quiescent(s) && id in s.order.orders
    ensures id in s.payment.payments
  {
    assert ViewOk(ViewOf(s, id), id);
    assert Emitted(Outbox(s, Producer(TopicOrderCreated)), id, TopicOrderCreated) == ViewOf(s, id).created;
    QuiescentHandled(s, PaymentService, id, TopicOrderCreated);
  }

  lemma QuiescentAtPayment(s: Sys, id: Id)
    requires Inv(s) && Quiescent(s)
    ensures ViewOf(s, id).refusedAtPayment != Once(false)
  {
    var t := TopicReservationFailed;
    assert ViewOf(s, id).refusedAtPayment == EvOf(Outbox(s, Producer(t)), s.payment.markers, id, t);
    if |Emitted(Outbox(s, Producer(t)), id, t)| == 1 {
      QuiescentHandled(s, PaymentService, id, t);
    }
  }

  lemma QuiescentIsSettled(s: Sys, id: Id)
    requires Inv(s) && Quiescent(s) && id in s.order.orders
    ensures Settled(ViewOf(s, id))
  {
    QuiescentIsCharged(s, id);
    QuiescentAtPayment(s, id);
    forall t | Consumes(OrderService, t) ensures EvAt(ViewOf(s, id), t) != Once(false) {
      QuiescentAtOrder(s, id, t);
    }
  }

  /** What a settled saga looks like; only a lost call leaves it short of a terminal status. */
  lemma SettledOutcome(v: View, id: Id)
    requires ViewOk(v, id) && v.order.Some? && Settled(v)
    ensures v.lost <==> v.order.value.status == PaymentOK
    ensures v.lost ==> v.payment.value.status == Processed && v.reservation.None?
    ensures v.order.value.status in {PaymentOK, Confirmed, Cancelled}
    ensures v.order.value.status == Cancelled ==> v.payment.value.status in {Failed, Refunded} && v.reservation.None?
    ensures v.order.value.status == Confirmed ==> v.payment.value.status == Processed
  {
    assert EvAt(v, TopicPaymentProcessed) == v.processed && EvAt(v, TopicPaymentFailed) == v.failed;
    assert EvAt(v, TopicPaymentRefunded) == v.refunded && EvAt(v, TopicInventoryReserved) == v.reserved;
    assert EvAt(v, TopicReservationFailed) == v.refused;
  }

  predicate UndoneAndCancelled(s: Sys, id: Id)
    requires id in s.order.orders
  {
    && s.order.orders[id].status == Cancelled
    && id in s.payment.payments && s.payment.payments[id].status in {Failed, Refunded}
    && id !in s.inventory.reservations
  }

  predicate StuckAtPaymentOk(s: Sys, id: Id)
    requires id in s.order.orders
  {
    && s.order.orders[id].status == PaymentOK
    && id in s.payment.payments && s.payment.payments[id].status == Processed
    && id !in s.inventory.reservations
  }

  /**
   When nothing is left to do, every order is confirmed, paid and held, or cancelled with the charge
   undone and nothing held. The exception is exactly the orders whose reserve call was lost.
   */
  lemma QuiescentOutcome(s0: Sys, steps: seq<Step>, id: Id)
    requires Init(s0) && CanRun(s0, steps) && Quiescent(Run(s0, steps))
    requires id in Run(s0, steps).order.orders
    ensures var s := Run(s0, steps);
            && (id !in s.lost ==>
                  (s.order.orders[id].status == Confirmed && PaidAndHeld(s, id)) || UndoneAndCancelled(s, id))
            && (id in s.lost <==> StuckAtPaymentOk(s, id))
  {
    var s := Run(s0, steps);
    ReachableInv(s0, steps);
    assert ViewOk(ViewOf(s, id), id);
    QuiescentIsSettled(s, id);
    SettledOutcome(ViewOf(s, id), id);
    if s.order.orders[id].status == Confirmed {
      ConfirmedIsHeld(s, id);
    }
  }

  // ----- No overselling -----

  lemma StepConserves(s: Sys, st: Step)
    requires Enabled(s, st)
    ensures SameTotals(s.inventory.stock, Next(s, st).inventory.stock)
  {
    match st
    case ExecuteStep(saga, last, rid, key) =>
      var q := s.calls[saga];
      OpConserves(s.inventory, ReserveOp(q.saga, q.key, q.sku, q.quantity, rid, key));
    case CancelledStep(key) =>
      var e := Head(s, InventoryService, TopicOrderCancelled);
      OpConserves(s.inventory, ReleaseOp(e.saga, e.key, OrderCancelledConsumer, key));
    case _ =>
      assert Next(s, st).inventory.stock == s.inventory.stock;
  }

  lemma {:induction false} RunConserves(s: Sys, steps: seq<Step>)
    requires CanRun(s, steps)
    ensures SameTotals(s.inventory.stock, Run(s, steps).inventory.stock)
    decreases |steps|
  {
    if steps != [] {
      StepConserves(s, steps[0]);
      RunConserves(Next(s, steps[0]), steps[1..]);
    }
  }

  /** Quantities of the CONFIRMED orders for one sku. */
  function ConfirmedQuantities(orders: map<Id, OrderRow>, sku: Sku): map<Id, int> {
    map id | id in orders && orders[id].status == Confirmed && orders[id].sku == sku :: orders[id].quantity
  }

  lemma ConfirmedIsHeld(s: Sys, id: Id)
    requires Inv(s) && id in s.order.orders && s.order.orders[id].status == Confirmed
    ensures PaidAndHeld(s, id)
  {
    assert ViewOk(ViewOf(s, id), id);
  }

  lemma WeightsAreNonNegative(s: Sys, sku: Sku)
    requires SoundReservations(s.inventory)
    ensures forall id :: id in Weights(s.inventory.reservations, sku) ==>
            Weights(s.inventory.reservations, sku)[id] >= 0
  {
  }

  lemma ConfirmedWithinHeld(s: Sys, sku: Sku)
    requires Inv(s)
    ensures Total(ConfirmedQuantities(s.order.orders, sku)) <= HeldQuantity(s.inventory.reservations, sku)
  {
    var confirmed, held := ConfirmedQuantities(s.order.orders, sku), Weights(s.inventory.reservations, sku);
    forall id | id in confirmed ensures id in held && confirmed[id] <= held[id] {
      ConfirmedIsHeld(s, id);
    }
    WeightsAreNonNegative(s, sku);
    TotalMonotone(confirmed, held);
  }

  /** A sku that Inventory does not stock is never reserved. */
  lemma UnstockedIsNeverHeld(s: Sys, sku: Sku)
    requires SoundReservations(s.inventory) && sku !in s.inventory.stock
    ensures HeldQuantity(s.inventory.reservations, sku) <= 0
  {
    var held := Weights(s.inventory.reservations, sku);
    var none := map id | id in held :: 0;
    TotalMonotone(held, none);
    TotalOfZeros(none);
  }

  lemma {:induction false} TotalOfZeros(w: map<Id, int>)
    requires forall id :: id in w ==> w[id] == 0
    ensures Total(w) == 0
    decreases |w|
  {
    if w != map[] {
      var k :| k in w;
      TotalRemove(w, k);
      TotalOfZeros(w - {k});
    }
  }

  /** Over any number of orders and any schedule, the confirmed quantity fits the initial stock. */
  lemma NeverOversold(s0: Sys, steps: seq<Step>, sku: Sku)
    requires Init(s0) && CanRun(s0, steps)
    ensures Total(ConfirmedQuantities(Run(s0, steps).order.orders, sku)) <= Available(s0.inventory, sku)
  {
    var s := Run(s0, steps);
    ReachableInv(s0, steps);
    RunConserves(s0, steps);
    ConfirmedWithinHeld(s, sku);
    if sku !in s.inventory.stock {
      UnstockedIsNeverHeld(s, sku);
    }
  }
}
