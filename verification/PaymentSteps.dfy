/** Payment's saga step and its compensation keep the joint invariant. */
module PaymentSteps {
  import opened Messages
  import opened Orders
  import opened Payments
  import opened SagaSystem
  import opened SagaView
  import opened SagaInvariant
  import opened OrderSteps

  /** A step of Payment that books one transaction and moves past one record. */
  ghost predicate PaymentDelta(s: Sys, s': Sys, t: Topic, e: Envelope, key: Id) {
    && s' == s.(payment := s'.payment, calls := s'.calls, issued := s'.issued,
                position := Advance(s, PaymentService, t))
    && Transacts(s, s', PaymentService, key)
    && Touches(s, s', e.saga)
    && (IssuedOk(s) ==> IssuedOk(s'))
    && s'.payment.markers <= s.payment.markers + {e.key}
    && HandledBy(s', PaymentService, e)
  }

  lemma PaymentMoved(s: Sys, s': Sys, t: Topic, e: Envelope)
    requires HasNext(s, PaymentService, t) && e == Head(s, PaymentService, t)
    requires s' == s.(payment := s'.payment, calls := s'.calls, issued := s'.issued,
                      position := Advance(s, PaymentService, t))
    requires s.payment.markers <= s'.payment.markers && s.payment.payments.Keys <= s'.payment.payments.Keys
    requires HandledBy(s', PaymentService, e)
    ensures Remembers(s, s') && MovesPast(s, s') && forall c, u :: Position(s, c, u) <= Position(s', c, u)
  {
  }

  lemma PaymentDeltaKeeps(s: Sys, s': Sys, t: Topic, e: Envelope, key: Id)
    requires Inv(s) && HasNext(s, PaymentService, t) && e == Head(s, PaymentService, t) && RecordOk(s, t, e)
    requires PaymentDelta(s, s', t, e, key)
    requires s.payment.payments.Keys <= s'.payment.payments.Keys
    requires ViewOk(ViewOf(s', e.saga), e.saga)
    ensures Inv(s')
  {
    PaymentMoved(s, s', t, e);
    TransactKeepsChannels(s, s', PaymentService, key);
    ViewsKept(s, s', e.saga);
  }

  /** Nothing but the offset moves. */
  lemma PaymentSkipKeeps(s: Sys, t: Topic, e: Envelope, key: Id)
    requires Inv(s) && HasNext(s, PaymentService, t) && e == Head(s, PaymentService, t) && key !in s.issued
    requires HandledBy(s, PaymentService, e)
    ensures Inv(s.(position := Advance(s, PaymentService, t)))
  {
    var s' := s.(position := Advance(s, PaymentService, t));
    PaymentMoved(s, s', t, e);
    TransactKeepsChannels(s, s', PaymentService, key);
    SameViews(s, s');
  }

  // ----- order.created -----

  lemma PaymentKnowsTheOrder(s: Sys, e: Envelope)
    requires Inv(s) && RecordOk(s, TopicOrderCreated, e)
    ensures e.saga in s.order.orders
    ensures var o := s.order.orders[e.saga];
            e.data == OrderCreatedData(o.sku, o.quantity, o.amount) && ViewOf(s, e.saga).created == [e.key]
  {
    var v := ViewOf(s, e.saga);
    assert ViewOk(v, e.saga);
    assert v.created == Emitted(Outbox(s, OrderService), e.saga, TopicOrderCreated);
  }

  function PaymentTook(v: View, status: PaymentStatus, amount: real, call: Option<Request>): View {
    if status == Processed then v.(payment := Some(PaymentRow(status, amount)), processed := Once(false), call := call)
    else v.(payment := Some(PaymentRow(status, amount)), failed := Once(false))
  }

  lemma PaymentTakesOrder(v: View, id: Id, status: PaymentStatus, call: Option<Request>)
    requires ViewOk(v, id) && v.order.Some? && v.payment.None?
    requires status == Processed || status == Failed
    requires var o := v.order.value; call == Some(Request(id, v.created[0], o.sku, o.quantity))
    ensures ViewOk(PaymentTook(v, status, v.order.value.amount, call), id)
  {
  }

  /** The row appended by the payment transaction. */
  lemma PaymentOutboxAfter(s: Sys, r: Row)
    requires RowsOk(s)
    ensures EmitsOnly(s.payment.outbox, s.payment.outbox + [r], r.env.saga)
    ensures forall t :: t != r.env.topic ==>
              EvOf(s.payment.outbox + [r], s.order.markers, r.env.saga, t)
              == EvOf(s.payment.outbox, s.order.markers, r.env.saga, t)
    ensures r.env.key !in s.order.markers
            && EvOf(s.payment.outbox, s.order.markers, r.env.saga, r.env.topic).Absent? ==>
              EvOf(s.payment.outbox + [r], s.order.markers, r.env.saga, r.env.topic) == Once(false)
  {
    AppendEmitsOnly(s.payment.outbox, r);
    forall t | t != r.env.topic
      ensures EvOf(s.payment.outbox + [r], s.order.markers, r.env.saga, t)
           == EvOf(s.payment.outbox, s.order.markers, r.env.saga, t)
    {
      EvAppendOther(s.payment.outbox, r, s.order.markers, r.env.saga, t);
    }
    EmittedAppend(s.payment.outbox, r, r.env.saga, r.env.topic);
  }

  /** `s'` is `s` with the transaction that appends `r` done and the record `e` of topic `t` passed. */
  ghost predicate PaymentBooks(s: Sys, s': Sys, t: Topic, e: Envelope, r: Row) {
    && s' == s.(payment := s'.payment, calls := s'.calls, issued := s.issued[r.env.key := r.env],
                position := Advance(s, PaymentService, t))
    && s'.payment.outbox == s.payment.outbox + [r]
    && AgreeAt(s.payment.payments, s'.payment.payments, e.saga) && AgreeAt(s.calls, s'.calls, e.saga)
    && s.payment.payments.Keys <= s'.payment.payments.Keys
    && s.payment.markers <= s'.payment.markers <= s.payment.markers + {e.key}
  }

  lemma BookingIsADelta(s: Sys, s': Sys, t: Topic, e: Envelope, r: Row)
    requires ChannelInv(s) && HasNext(s, PaymentService, t) && e == Head(s, PaymentService, t) && RecordOk(s, t, e)
    requires PaymentBooks(s, s', t, e, r) && HandledBy(s', PaymentService, e)
    requires r.env.key !in s.issued && r.env.saga == e.saga && r.status == RowPending
             && Producer(r.env.topic) == PaymentService
    requires r.env.topic == TopicPaymentRefunded ==> r.env.data == PaymentData(0.0)
    ensures PaymentDelta(s, s', t, e, r.env.key)
  {
    PaymentOutboxAfter(s, r);
  }

  lemma CreatedDelta(s: Sys, forceFailure: bool, key: Id, e: Envelope)
    requires ChannelInv(s) && HasNext(s, PaymentService, TopicOrderCreated) && key !in s.issued
    requires e == Head(s, PaymentService, TopicOrderCreated) && RecordOk(s, TopicOrderCreated, e)
    requires e.saga !in s.payment.payments
    ensures var s' := HandleCreatedAtPayment(s, forceFailure, key);
            && PaymentDelta(s, s', TopicOrderCreated, e, key)
            && s.payment.payments.Keys <= s'.payment.payments.Keys
  {
    var amount := AmountOf(e.data);
    var status := if Approved(amount, forceFailure) then Processed else Failed;
    var s' := HandleCreatedAtPayment(s, forceFailure, key);
    BookingIsADelta(s, s', TopicOrderCreated, e, NewRow(PaymentEnvelope(key, e.saga, status, amount)));
  }

  lemma CreatedViewFields(s: Sys, s': Sys, status: PaymentStatus, key: Id, id: Id)
    requires RowsOk(s) && MarkersOk(s) && key !in s.issued && (status == Processed || status == Failed)
    requires var v := ViewOf(s, id);
             && v.order.Some? && |v.created| == 1 && v.processed.Absent? && v.failed.Absent? && v.call.None?
    requires s'.order == s.order && s'.inventory == s.inventory && s'.lost == s.lost
    requires var o := s.order.orders[id];
             && s'.payment.outbox == s.payment.outbox + [NewRow(PaymentEnvelope(key, id, status, o.amount))]
             && s'.payment.payments == s.payment.payments[id := PaymentRow(status, o.amount)]
             && s'.payment.markers == s.payment.markers
             && s'.calls == (if status == Processed
                             then s.calls[id := Request(id, ViewOf(s, id).created[0], o.sku, o.quantity)]
                             else s.calls)
    requires forall k :: k in s.issued ==> k in s'.issued && s'.issued[k] == s.issued[k]
    ensures var o := s.order.orders[id];
            var call := Some(Request(id, ViewOf(s, id).created[0], o.sku, o.quantity));
            ViewOf(s', id) == PaymentTook(ViewOf(s, id), status, o.amount, call)
  {
    PaymentOutboxAfter(s, NewRow(PaymentEnvelope(key, id, status, s.order.orders[id].amount)));
    assert TableOk(s.issued, Outbox(s, OrderService), OrderService);
    EmittedIsIssued(s.issued, s.order.outbox, OrderService, id, TopicOrderCreated, ViewOf(s, id).created[0]);
  }

  /** What handling a new order does to Payment's tables and to the calls in flight. */
  lemma CreatedEffect(s: Sys, forceFailure: bool, key: Id, e: Envelope, o: OrderRow)
    requires HasNext(s, PaymentService, TopicOrderCreated) && key !in s.issued
    requires e == Head(s, PaymentService, TopicOrderCreated) && e.saga !in s.payment.payments
    requires e.data == OrderCreatedData(o.sku, o.quantity, o.amount)
    ensures var s' := HandleCreatedAtPayment(s, forceFailure, key);
            var status := if Approved(o.amount, forceFailure) then Processed else Failed;
            && s'.order == s.order && s'.inventory == s.inventory && s'.lost == s.lost
            && s'.payment.outbox == s.payment.outbox + [NewRow(PaymentEnvelope(key, e.saga, status, o.amount))]
            && s'.payment.payments == s.payment.payments[e.saga := PaymentRow(status, o.amount)]
            && s'.payment.markers == s.payment.markers
            && s'.calls == (if status == Processed then s.calls[e.saga := Request(e.saga, e.key, o.sku, o.quantity)]
                            else s.calls)
            && forall k :: k in s.issued ==> k in s'.issued && s'.issued[k] == s.issued[k]
  {
  }

  lemma CreatedView(s: Sys, forceFailure: bool, key: Id, e: Envelope)
    requires Inv(s) && HasNext(s, PaymentService, TopicOrderCreated) && key !in s.issued
    requires e == Head(s, PaymentService, TopicOrderCreated) && RecordOk(s, TopicOrderCreated, e)
    requires e.saga !in s.payment.payments
    ensures ViewOk(ViewOf(HandleCreatedAtPayment(s, forceFailure, key), e.saga), e.saga)
  {
    var v := ViewOf(s, e.saga);
    assert ViewOk(v, e.saga);
    PaymentKnowsTheOrder(s, e);
    var o := v.order.value;
    var status := if Approved(o.amount, forceFailure) then Processed else Failed;
    PaymentTakesOrder(v, e.saga, status, Some(Request(e.saga, e.key, o.sku, o.quantity)));
    CreatedEffect(s, forceFailure, key, e, o);
    CreatedViewFields(s, HandleCreatedAtPayment(s, forceFailure, key), status, key, e.saga);
  }

  lemma CreatedStepKeeps(s: Sys, forceFailure: bool, key: Id)
    requires Inv(s) && Enabled(s, CreatedStep(forceFailure, key))
    ensures Inv(Next(s, CreatedStep(forceFailure, key)))
  {
    var e := HeadIsEmitted(s, PaymentService, TopicOrderCreated);
    if e.saga in s.payment.payments {
      PaymentSkipKeeps(s, TopicOrderCreated, e, key);
      assert Next(s, CreatedStep(forceFailure, key)) == s.(position := Advance(s, PaymentService, TopicOrderCreated));
    } else {
      CreatedDelta(s, forceFailure, key, e);
      CreatedView(s, forceFailure, key, e);
      PaymentDeltaKeeps(s, HandleCreatedAtPayment(s, forceFailure, key), TopicOrderCreated, e, key);
    }
  }

  // ----- inventory.reservation_failed -----

  /** A refusal that Payment has not accepted yet finds a PROCESSED payment. */
  lemma PaymentKnowsTheRefusal(s: Sys, e: Envelope)
    requires Inv(s) && RecordOk(s, TopicReservationFailed, e)
    ensures Emitted(s.inventory.outbox, e.saga, TopicReservationFailed) == [e.key]
    ensures e.key !in s.payment.markers ==>
              e.saga in s.payment.payments && s.payment.payments[e.saga].status == Processed
    ensures AmountOf(e.data) == 0.0
  {
    var v := ViewOf(s, e.saga);
    assert ViewOk(v, e.saga);
    assert Outbox(s, InventoryService) == s.inventory.outbox;
  }

  function RefundTook(v: View): View
    requires v.payment.Some?
  {
    v.(payment := Some(v.payment.value.(status := Refunded)), refunded := Once(false), refusedAtPayment := Once(true))
  }

  lemma PaymentTakesRefusal(v: View, id: Id)
    requires ViewOk(v, id) && v.payment.Some? && v.payment.value.status == Processed
    requires v.refusedAtPayment == Once(false)
    ensures ViewOk(RefundTook(v), id)
  {
  }

  lemma RefundDelta(s: Sys, key: Id, e: Envelope)
    requires ChannelInv(s) && HasNext(s, PaymentService, TopicReservationFailed) && key !in s.issued
    requires e == Head(s, PaymentService, TopicReservationFailed) && RecordOk(s, TopicReservationFailed, e)
    requires e.key !in s.payment.markers && AmountOf(e.data) == 0.0
    requires e.saga in s.payment.payments && s.payment.payments[e.saga].status == Processed
    ensures var s' := HandleFailureAtPayment(s, key);
            && PaymentDelta(s, s', TopicReservationFailed, e, key)
            && s.payment.payments.Keys <= s'.payment.payments.Keys
  {
    var s' := HandleFailureAtPayment(s, key);
    BookingIsADelta(s, s', TopicReservationFailed, e, NewRow(PaymentEnvelope(key, e.saga, Refunded, 0.0)));
  }

  lemma RefundView(s: Sys, key: Id, e: Envelope)
    requires Inv(s) && HasNext(s, PaymentService, TopicReservationFailed) && key !in s.issued
    requires e == Head(s, PaymentService, TopicReservationFailed) && RecordOk(s, TopicReservationFailed, e)
    requires e.key !in s.payment.markers
    ensures ViewOk(ViewOf(HandleFailureAtPayment(s, key), e.saga), e.saga)
  {
    var s' := HandleFailureAtPayment(s, key);
    var v := ViewOf(s, e.saga);
    assert ViewOk(v, e.saga);
    PaymentKnowsTheRefusal(s, e);
    PaymentOutboxAfter(s, NewRow(PaymentEnvelope(key, e.saga, Refunded, 0.0)));
    PaymentTakesRefusal(v, e.saga);
    RefundViewFields(s, s', key, e);
  }

  lemma RefundViewFields(s: Sys, s': Sys, key: Id, e: Envelope)
    requires RowsOk(s) && MarkersOk(s) && key !in s.issued && e.saga in s.payment.payments
    requires Emitted(s.inventory.outbox, e.saga, TopicReservationFailed) == [e.key]
    requires ViewOf(s, e.saga).refunded.Absent? && |ViewOf(s, e.saga).created| == 1
    requires s'.order == s.order && s'.inventory == s.inventory && s'.calls == s.calls && s'.lost == s.lost
    requires s'.payment.outbox == s.payment.outbox + [NewRow(PaymentEnvelope(key, e.saga, Refunded, 0.0))]
    requires s'.payment.payments == s.payment.payments[e.saga := s.payment.payments[e.saga].(status := Refunded)]
    requires s'.payment.markers == s.payment.markers + {e.key}
    requires forall k :: k in s.issued ==> k in s'.issued && s'.issued[k] == s.issued[k]
    ensures ViewOf(s', e.saga) == RefundTook(ViewOf(s, e.saga))
  {
    PaymentOutboxAfter(s, NewRow(PaymentEnvelope(key, e.saga, Refunded, 0.0)));
    assert TableOk(s.issued, Outbox(s, OrderService), OrderService);
    EmittedIsIssued(s.issued, s.order.outbox, OrderService, e.saga, TopicOrderCreated, ViewOf(s, e.saga).created[0]);
  }

  lemma ReservationFailedStepKeeps(s: Sys, key: Id)
    requires Inv(s) && Enabled(s, ReservationFailedStep(key))
    ensures Inv(Next(s, ReservationFailedStep(key)))
  {
    var t := TopicReservationFailed;
    var e := HeadIsEmitted(s, PaymentService, t);
    PaymentKnowsTheRefusal(s, e);
    if e.key in s.payment.markers {
      PaymentSkipKeeps(s, t, e, key);
      assert Next(s, ReservationFailedStep(key)) == s.(position := Advance(s, PaymentService, t));
    } else {
      RefundDelta(s, key, e);
      RefundView(s, key, e);
      PaymentDeltaKeeps(s, HandleFailureAtPayment(s, key), t, e, key);
    }
  }
}
