/** Creating orders and consuming events at Order keeps the joint invariant. */
module OrderSteps {
  import opened Messages
  import opened OrderDomain
  import opened Orders
  import opened SagaSystem
  import opened SagaView
  import opened SagaInvariant

  lemma AppendEmitsOnly(rows: seq<Row>, r: Row)
    ensures EmitsOnly(rows, rows + [r], r.env.saga)
  {
    forall id, t | id != r.env.saga ensures Emitted(rows + [r], id, t) == Emitted(rows, id, t) {
      EmittedAppend(rows, r, id, t);
    }
  }

  /** The row behind a record: what its producer has emitted for that saga and topic. */
  lemma HeadIsEmitted(s: Sys, svc: Service, t: Topic) returns (e: Envelope)
    requires ChannelInv(s) && HasNext(s, svc, t)
    ensures e == Head(s, svc, t) && RecordOk(s, t, e)
    ensures |Emitted(Outbox(s, Producer(t)), e.saga, t)| > 0
    ensures |Emitted(Outbox(s, Producer(t)), e.saga, t)| == 1 ==> Emitted(Outbox(s, Producer(t)), e.saga, t)[0] == e.key
  {
    e := Head(s, svc, t);
    assert RecordOk(s, t, Log(s, t)[Position(s, svc, t)]);
  }

  // ----- CreateOrder -----

  lemma CreateKeepsViews(s: Sys, id: Id, sku: Sku, quantity: int, amount: real, key: Id)
    requires Inv(s)
    requires Enabled(s, CreateStep(id, sku, quantity, amount, key))
    ensures ViewsOk(Next(s, CreateStep(id, sku, quantity, amount, key)))
  {
    var s' := Next(s, CreateStep(id, sku, quantity, amount, key));
    var r := NewRow(Envelope(key, id, TopicOrderCreated, OrderCreatedData(sku, quantity, amount)));
    AppendEmitsOnly(s.order.outbox, r);
    assert Touches(s, s', id);
    assert ViewOk(ViewOf(s, id), id);
    EmittedAppend(s.order.outbox, r, id, TopicOrderCreated);
    EmittedAppend(s.order.outbox, r, id, TopicOrderCancelled);
    assert ViewOf(s', id) == BLANK.(order := Some(OrderRow(sku, quantity, amount, Pending)),
                                    created := [key], createdData := Some(r.env.data));
    ViewsKept(s, s', id);
  }

  lemma CreateKeeps(s: Sys, id: Id, sku: Sku, quantity: int, amount: real, key: Id)
    requires Inv(s)
    requires Enabled(s, CreateStep(id, sku, quantity, amount, key))
    ensures Inv(Next(s, CreateStep(id, sku, quantity, amount, key)))
  {
    var s' := Next(s, CreateStep(id, sku, quantity, amount, key));
    TransactKeepsChannels(s, s', OrderService, key);
    CreateKeepsViews(s, id, sku, quantity, amount, key);
  }

  // ----- Order handles an event -----

  function EvAt(v: View, t: Topic): Ev {
    match t
    case TopicPaymentProcessed => v.processed
    case TopicPaymentFailed => v.failed
    case TopicPaymentRefunded => v.refunded
    case TopicInventoryReserved => v.reserved
    case TopicReservationFailed => v.refused
    case _ => Absent
  }

  lemma EvAtOfView(s: Sys, id: Id, t: Topic)
    requires Consumes(OrderService, t)
    ensures EvAt(ViewOf(s, id), t) == EvOf(Outbox(s, Producer(t)), s.order.markers, id, t)
  {
  }

  function WithEv(v: View, t: Topic, e: Ev): View {
    match t
    case TopicPaymentProcessed => v.(processed := e)
    case TopicPaymentFailed => v.(failed := e)
    case TopicPaymentRefunded => v.(refunded := e)
    case TopicInventoryReserved => v.(reserved := e)
    case TopicReservationFailed => v.(refused := e)
    case _ => v
  }

  /** A record waiting for Order belongs to a known order, and its event was emitted once. */
  lemma OrderKnowsTheRecord(s: Sys, t: Topic, e: Envelope)
    requires Inv(s) && Consumes(OrderService, t) && RecordOk(s, t, e)
    ensures e.saga in s.order.orders
    ensures EvAt(ViewOf(s, e.saga), t) == Once(e.key in s.order.markers)
    ensures Emitted(Outbox(s, Producer(t)), e.saga, t) == [e.key]
  {
    var v := ViewOf(s, e.saga);
    assert ViewOk(v, e.saga);
    EvAtOfView(s, e.saga, t);
  }

  /** The new view of the saga, purely in terms of the old one. */
  function OrderTook(v: View, t: Topic, next: Status): View
    requires v.order.Some?
  {
    var o := v.order.value;
    WithEv(v, t, Once(true)).(
      order := Some(o.(status := next)),
      cancelled := v.cancelled + if next != o.status && next == Cancelled then 1 else 0)
  }

  /** In a correct view an unaccepted event is never rejected, and taking it keeps the view correct. */
  lemma OrderTakesEvent(v: View, id: Id, t: Topic)
    requires ViewOk(v, id) && v.order.Some? && Consumes(OrderService, t)
    requires EvAt(v, t) == Once(false)
    ensures var r := Apply(v.order.value.status, TopicTrigger(t).value);
            && !r.ErrInvalidTransition?
            && (r.Ok? ==> ViewOk(OrderTook(v, t, r.next), id))
  {
  }

  /** `s'` differs from `s` by Order having accepted `e` with the new status `next`. */
  ghost predicate OrderTakes(s: Sys, s': Sys, e: Envelope, next: Status) {
    && e.saga in s.order.orders
    && s'.payment == s.payment && s'.inventory == s.inventory && s'.calls == s.calls && s'.lost == s.lost
    && s'.order.markers == s.order.markers + {e.key}
    && s'.order.orders == s.order.orders[e.saga := s.order.orders[e.saga].(status := next)]
    && Emitted(s'.order.outbox, e.saga, TopicOrderCreated) == Emitted(s.order.outbox, e.saga, TopicOrderCreated)
    && |Emitted(s'.order.outbox, e.saga, TopicOrderCancelled)|
       == |Emitted(s.order.outbox, e.saga, TopicOrderCancelled)|
          + (if next != s.order.orders[e.saga].status && next == Cancelled then 1 else 0)
    && forall k :: k in s.issued ==> k in s'.issued && s'.issued[k] == s.issued[k]
  }

  lemma OrderEvField(s: Sys, s': Sys, e: Envelope, next: Status, c: Topic)
    requires RowsOk(s) && Consumes(OrderService, c) && Registered(s.issued, e) && OrderTakes(s, s', e, next)
    requires c == e.topic ==> Emitted(Outbox(s, Producer(c)), e.saga, c) == [e.key]
    ensures EvAt(ViewOf(s', e.saga), c) == if c == e.topic then Once(true) else EvAt(ViewOf(s, e.saga), c)
  {
    EvAtOfView(s, e.saga, c);
    EvAtOfView(s', e.saga, c);
    assert Outbox(s', Producer(c)) == Outbox(s, Producer(c));
    assert TableOk(s.issued, Outbox(s, Producer(c)), Producer(c));
    OrderEvAfter(s.issued, Outbox(s, Producer(c)), Producer(c), s.order.markers, e, c);
  }

  lemma OrderOtherFields(s: Sys, s': Sys, e: Envelope, next: Status)
    requires RowsOk(s) && OrderTakes(s, s', e, next)
    ensures var v, v' := ViewOf(s, e.saga), ViewOf(s', e.saga);
            v' == v.(order := Some(s.order.orders[e.saga].(status := next)),
                     cancelled := v.cancelled
                                  + (if next != s.order.orders[e.saga].status && next == Cancelled then 1 else 0),
                     processed := v'.processed, failed := v'.failed, refunded := v'.refunded,
                     reserved := v'.reserved, refused := v'.refused)
  {
    var created := Emitted(s.order.outbox, e.saga, TopicOrderCreated);
    assert TableOk(s.issued, Outbox(s, OrderService), OrderService);
    if |created| == 1 {
      EmittedIsIssued(s.issued, s.order.outbox, OrderService, e.saga, TopicOrderCreated, created[0]);
    }
  }

  /** Only the accepted event's entry, the status and the number of cancellations change. */
  lemma OrderViewFields(s: Sys, s': Sys, e: Envelope, next: Status)
    requires RowsOk(s) && Consumes(OrderService, e.topic) && Registered(s.issued, e) && OrderTakes(s, s', e, next)
    requires Emitted(Outbox(s, Producer(e.topic)), e.saga, e.topic) == [e.key]
    ensures ViewOf(s', e.saga) == OrderTook(ViewOf(s, e.saga), e.topic, next)
  {
    OrderEvField(s, s', e, next, TopicPaymentProcessed);
    OrderEvField(s, s', e, next, TopicPaymentFailed);
    OrderEvField(s, s', e, next, TopicPaymentRefunded);
    OrderEvField(s, s', e, next, TopicInventoryReserved);
    OrderEvField(s, s', e, next, TopicReservationFailed);
    OrderOtherFields(s, s', e, next);
    ViewFromEvents(ViewOf(s, e.saga), ViewOf(s', e.saga), e.topic, next);
  }

  /** A view is determined by its five events at Order and its other entries. */
  lemma ViewFromEvents(v: View, v': View, t: Topic, next: Status)
    requires Consumes(OrderService, t) && v.order.Some?
    requires v' == v.(
      order := Some(v.order.value.(status := next)),
      cancelled := v.cancelled + (if next != v.order.value.status && next == Cancelled then 1 else 0),
      processed := if t == TopicPaymentProcessed then Once(true) else v.processed,
      failed := if t == TopicPaymentFailed then Once(true) else v.failed,
      refunded := if t == TopicPaymentRefunded then Once(true) else v.refunded,
      reserved := if t == TopicInventoryReserved then Once(true) else v.reserved,
      refused := if t == TopicReservationFailed then Once(true) else v.refused)
    ensures v' == OrderTook(v, t, next)
  {
  }

  lemma OrderEvAfter(issued: map<Id, Envelope>, rows: seq<Row>, svc: Service, markers: set<Id>, e: Envelope, t: Topic)
    requires TableOk(issued, rows, svc) && Registered(issued, e) && Producer(t) == svc
    requires t == e.topic ==> Emitted(rows, e.saga, t) == [e.key]
    ensures EvOf(rows, markers + {e.key}, e.saga, t)
         == if t == e.topic then Once(true) else EvOf(rows, markers, e.saga, t)
  {
    if t != e.topic {
      EvMarkOther(issued, rows, svc, markers, e.key, e.saga, t);
    }
  }

  lemma OrderOutboxAfter(s: Sys, t: Topic, key: Id, e: Envelope)
    requires RowsOk(s) && e.topic == t && e.saga in s.order.orders && key !in s.issued
    requires HandleEvent(s.order, e, key).1.IsFirstAcceptance()
    ensures var r := Apply(s.order.orders[e.saga].status, TopicTrigger(t).value);
            var db := HandleEvent(s.order, e, key).0;
            var issued := Register(s.issued, s.order.outbox, db.outbox);
            && r.Ok?
            && db.orders == s.order.orders[e.saga := s.order.orders[e.saga].(status := r.next)]
            && Appends(s.issued, issued, s.order.outbox, db.outbox, OrderService, key)
            && EmitsOnly(s.order.outbox, db.outbox, e.saga)
            && Emitted(db.outbox, e.saga, TopicOrderCreated) == Emitted(s.order.outbox, e.saga, TopicOrderCreated)
            && |Emitted(db.outbox, e.saga, TopicOrderCancelled)|
               == |Emitted(s.order.outbox, e.saga, TopicOrderCancelled)|
                   + (if r.changed && r.next == Cancelled then 1 else 0)
            && (forall k :: k in s.issued ==> k in issued && issued[k] == s.issued[k])
            && (forall k :: k in issued && k !in s.issued ==>
                  k == key && issued[k].key == key && issued[k].topic == TopicOrderCancelled)
  {
    AcceptedEffect(s.order, e, key);
    var r := Apply(s.order.orders[e.saga].status, TopicTrigger(t).value);
    if r.changed && r.next == Cancelled {
      var row := NewRow(CancelledEnvelope(key, e.saga));
      AppendEmitsOnly(s.order.outbox, row);
      EmittedAppend(s.order.outbox, row, e.saga, TopicOrderCreated);
      EmittedAppend(s.order.outbox, row, e.saga, TopicOrderCancelled);
    } else {
      assert s.order.outbox + [] == s.order.outbox;
    }
  }

  /** `s'` is `s` after a transaction of Order under key `key` that accepted record `e` of topic `t`. */
  ghost predicate OrderDelta(s: Sys, s': Sys, t: Topic, e: Envelope, key: Id) {
    && s' == s.(order := s'.order, position := Advance(s, OrderService, t), issued := s'.issued)
    && s'.order.markers == s.order.markers + {e.key}
    && AgreeAt(s.order.orders, s'.order.orders, e.saga)
    && Appends(s.issued, s'.issued, s.order.outbox, s'.order.outbox, OrderService, key)
    && EmitsOnly(s.order.outbox, s'.order.outbox, e.saga)
    && forall k :: k in s.issued ==> k in s'.issued && s'.issued[k] == s.issued[k]
  }

  lemma OrderDeltaTouches(s: Sys, s': Sys, t: Topic, e: Envelope, key: Id)
    requires OrderDelta(s, s', t, e, key) && key !in s.issued && e.key in s.issued && s.issued[e.key].saga == e.saga
    ensures Transacts(s, s', OrderService, key) && Touches(s, s', e.saga)
  {
    assert Outbox(s, OrderService) == s.order.outbox && Outbox(s', OrderService) == s'.order.outbox;
  }

  lemma OrderAcceptsDelta(s: Sys, t: Topic, key: Id, e: Envelope)
    requires ChannelInv(s) && HasNext(s, OrderService, t) && e == Head(s, OrderService, t) && key !in s.issued
    requires RecordOk(s, t, e) && e.saga in s.order.orders
    requires HandleEvent(s.order, e, key).1.IsFirstAcceptance()
    ensures var s' := HandleAtOrder(s, t, key);
            && s' == s.(order := s'.order, position := Advance(s, OrderService, t), issued := s'.issued)
            && s'.order.markers == s.order.markers + {e.key}
            && Transacts(s, s', OrderService, key)
            && Touches(s, s', e.saga)
            && (IssuedOk(s) ==> IssuedOk(s'))
  {
    OrderOutboxAfter(s, t, key, e);
    OrderDeltaTouches(s, HandleAtOrder(s, t, key), t, e, key);
  }

  lemma OrderAcceptsKeepsViews(s: Sys, t: Topic, key: Id, e: Envelope)
    requires Inv(s) && HasNext(s, OrderService, t) && e == Head(s, OrderService, t) && key !in s.issued
    requires RecordOk(s, t, e)
    requires HandleEvent(s.order, e, key).1.IsFirstAcceptance()
    ensures ViewsOk(HandleAtOrder(s, t, key))
  {
    var s' := HandleAtOrder(s, t, key);
    OrderKnowsTheRecord(s, t, e);
    OrderAcceptsDelta(s, t, key, e);
    assert ViewOk(ViewOf(s', e.saga), e.saga) by {
      OrderOutboxAfter(s, t, key, e);
      var r := Apply(s.order.orders[e.saga].status, TopicTrigger(t).value);
      OrderViewFields(s, s', e, r.next);
      assert ViewOk(ViewOf(s, e.saga), e.saga);
      OrderTakesEvent(ViewOf(s, e.saga), e.saga, t);
    }
    ViewsKept(s, s', e.saga);
  }

  lemma OrderAcceptsKeeps(s: Sys, t: Topic, key: Id, e: Envelope)
    requires Inv(s) && HasNext(s, OrderService, t) && e == Head(s, OrderService, t) && key !in s.issued
    requires RecordOk(s, t, e)
    requires HandleEvent(s.order, e, key).1.IsFirstAcceptance()
    ensures Inv(HandleAtOrder(s, t, key))
  {
    var s' := HandleAtOrder(s, t, key);
    OrderAcceptsKeepsViews(s, t, key, e);
    OrderKnowsTheRecord(s, t, e);
    OrderAcceptsDelta(s, t, key, e);
    OrderMoved(s, s', t, e);
    TransactKeepsChannels(s, s', OrderService, key);
  }

  lemma OrderMoved(s: Sys, s': Sys, t: Topic, e: Envelope)
    requires HasNext(s, OrderService, t) && e == Head(s, OrderService, t)
    requires s' == s.(order := s'.order, position := Advance(s, OrderService, t), issued := s'.issued)
    requires s.order.markers <= s'.order.markers && e.key in s'.order.markers
    ensures Remembers(s, s') && MovesPast(s, s') && forall c, u :: Position(s, c, u) <= Position(s', c, u)
  {
  }

  /** In a correct view an event that Order has not accepted yet is taken or parked. */
  lemma ViewNeverRejects(db: OrderDb, v: View, e: Envelope, key: Id)
    requires ViewOk(v, e.saga) && Consumes(OrderService, e.topic) && EvAt(v, e.topic) == Once(false)
    requires e.saga in db.orders && v.order == Some(db.orders[e.saga]) && e.key !in db.markers
    ensures HandleEvent(db, e, key).1 in {Applied, Unchanged, Premature}
  {
    OrderTakesEvent(v, e.saga, e.topic);
  }

  /** Order never meets an invalid transition, an unknown order or an unknown topic. */
  lemma OrderNeverRejects(s: Sys, t: Topic, e: Envelope, key: Id)
    requires Inv(s) && Consumes(OrderService, t) && RecordOk(s, t, e)
    ensures HandleEvent(s.order, e, key).1 in {Applied, Unchanged, Duplicate, Premature}
  {
    OrderKnowsTheRecord(s, t, e);
    if e.key !in s.order.markers {
      assert ViewOk(ViewOf(s, e.saga), e.saga);
      ViewNeverRejects(s.order, ViewOf(s, e.saga), e, key);
    }
  }

  lemma OrderDuplicateKeeps(s: Sys, t: Topic, key: Id, e: Envelope)
    requires Inv(s) && HasNext(s, OrderService, t) && e == Head(s, OrderService, t) && key !in s.issued
    requires HandleEvent(s.order, e, key).1 == Duplicate
    ensures Inv(HandleAtOrder(s, t, key))
  {
    var s' := HandleAtOrder(s, t, key);
    assert s' == s.(position := Advance(s, OrderService, t));
    TransactKeepsChannels(s, s', OrderService, key);
    SameViews(s, s');
  }

  /** Views do not depend on offsets. */
  lemma SameViews(s: Sys, s': Sys)
    requires ViewsOk(s)
    requires s' == s.(position := s'.position, committed := s'.committed)
    ensures ViewsOk(s')
  {
    forall id ensures ViewOk(ViewOf(s', id), id) {
      assert ViewOf(s', id) == ViewOf(s, id);
    }
  }

  lemma OrderStepKeeps(s: Sys, t: Topic, key: Id)
    requires Inv(s) && Enabled(s, OrderStep(t, key))
    ensures Inv(Next(s, OrderStep(t, key)))
  {
    var e := HeadIsEmitted(s, OrderService, t);
    OrderNeverRejects(s, t, e, key);
    var outcome := HandleEvent(s.order, e, key).1;
    if outcome.IsFirstAcceptance() {
      OrderAcceptsKeeps(s, t, key, e);
    } else if outcome == Duplicate {
      OrderDuplicateKeeps(s, t, key, e);
    }
  }
}
