/**
 One saga as all three services see it: the finite abstraction in which the protocol
 invariant is stated. Sagas only interact through the stock level.
 */
module SagaView {
  import opened Messages
  import opened OrderDomain
  import opened Orders
  import opened Payments
  import opened Inventory
  import opened SagaSystem

  /** How often an event was emitted, and whether the consumer has accepted it. */
  datatype Ev = Absent | Once(handled: bool) | Many {
    predicate Done() {
      Once? && handled
    }
  }

  function EvOf(rows: seq<Row>, markers: set<Id>, id: Id, t: Topic): Ev {
    var ks := Emitted(rows, id, t);
    if |ks| == 0 then Absent else if |ks| == 1 then Once(ks[0] in markers) else Many
  }

  datatype View = View(
    order: Option<OrderRow>,
    created: seq<Id>,            // keys of its order.created rows
    createdData: Option<Data>,   // what the first of them says
    cancelled: nat,              // number of order.cancelled rows
    payment: Option<PaymentRow>,
    processed: Ev,               // payment events, as accepted by Order
    failed: Ev,
    refunded: Ev,
    reservation: Option<Reservation>,
    reserved: Ev,                // inventory events, as accepted by Order
    refused: Ev,
    refusedAtPayment: Ev,        // inventory.reservation_failed, as accepted by Payment
    released: nat,
    executed: bool,              // its reserve key has been used
    call: Option<Request>,
    lost: bool)

  function Lookup<V>(m: map<Id, V>, id: Id): Option<V> {
    if id in m then Some(m[id]) else None
  }

  function ViewOf(s: Sys, id: Id): View {
    var created := Emitted(s.order.outbox, id, TopicOrderCreated);
    View(
      Lookup(s.order.orders, id),
      created,
      if |created| == 1 && created[0] in s.issued then Some(s.issued[created[0]].data) else None,
      |Emitted(s.order.outbox, id, TopicOrderCancelled)|,
      Lookup(s.payment.payments, id),
      EvOf(s.payment.outbox, s.order.markers, id, TopicPaymentProcessed),
      EvOf(s.payment.outbox, s.order.markers, id, TopicPaymentFailed),
      EvOf(s.payment.outbox, s.order.markers, id, TopicPaymentRefunded),
      Lookup(s.inventory.reservations, id),
      EvOf(s.inventory.outbox, s.order.markers, id, TopicInventoryReserved),
      EvOf(s.inventory.outbox, s.order.markers, id, TopicReservationFailed),
      EvOf(s.inventory.outbox, s.payment.markers, id, TopicReservationFailed),
      |Emitted(s.inventory.outbox, id, TopicInventoryReleased)|,
      |created| == 1 && (created[0], ReserveConsumer) in s.inventory.markers,
      Lookup(s.calls, id),
      id in s.lost)
  }

  const BLANK := View(None, [], None, 0, None, Absent, Absent, Absent, None, Absent, Absent, Absent, 0, false, None,
                      false)

  /** Payment: which events exist, and where the reserve call of an approved payment is. */
  predicate PaymentOk(v: View, id: Id, o: OrderRow)
    requires |v.created| == 1
  {
    && (v.call.Some? ==> v.call.value == Request(id, v.created[0], o.sku, o.quantity))
    && (v.lost ==> !v.executed && v.call.None?)
    && match v.payment
       case None =>
         v.processed.Absent? && v.failed.Absent? && v.refunded.Absent? && !v.executed && v.call.None? && !v.lost
       case Some(p) =>
         && p.amount == o.amount
         && match p.status
            case Failed =>
              v.failed.Once? && v.processed.Absent? && v.refunded.Absent? && !v.executed && v.call.None? && !v.lost
            case Processed =>
              && v.processed.Once? && v.failed.Absent? && v.refunded.Absent? && !v.refusedAtPayment.Done()
              && (v.executed || v.call.Some? || v.lost)
            case Refunded =>
              && v.processed.Once? && v.failed.Absent? && v.refunded.Once? && v.refusedAtPayment.Done()
              && v.executed
  }

  /** Inventory: an executed reserve left either a reservation or a refusal. */
  predicate StockOk(v: View, o: OrderRow) {
    && v.released == 0
    && !v.refused.Many? && (v.refused.Absent? <==> v.refusedAtPayment.Absent?) && !v.refusedAtPayment.Many?
    && if !v.executed then v.reserved.Absent? && v.refused.Absent? && v.reservation.None?
       else if v.reserved.Absent? then v.refused.Once? && v.reservation.None?
       else
         && v.reserved.Once? && v.refused.Absent?
         && v.reservation.Some?
         && v.reservation.value.state == Reserved
         && v.reservation.value.sku == o.sku && v.reservation.value.quantity == o.quantity
  }

  /** Order: the status says which events have been accepted. */
  predicate StatusOk(v: View, o: OrderRow) {
    && v.cancelled == (if o.status == Cancelled then 1 else 0)
    && match o.status
       case Pending =>
         !v.processed.Done() && !v.failed.Done() && !v.refunded.Done() && !v.reserved.Done() && !v.refused.Done()
       case PaymentOK =>
         v.processed.Done() && !v.refunded.Done() && !v.reserved.Done() && !v.refused.Done()
       case Confirmed => v.processed.Done() && v.reserved.Done()
       case Compensating => v.processed.Done() && v.refused.Done() && !v.refunded.Done()
       case Cancelled => v.failed.Done() || v.refused.Done()
  }

  predicate ViewOk(v: View, id: Id) {
    match v.order
    case None => v == BLANK
    case Some(o) =>
      && |v.created| == 1
      && o.quantity > 0
      && v.createdData == Some(OrderCreatedData(o.sku, o.quantity, o.amount))
      && PaymentOk(v, id, o)
      && StockOk(v, o)
      && StatusOk(v, o)
  }
}
