/** Inventory's compensation handler and the reserve call keep the joint invariant. */
module InventorySteps {
  import opened Messages
  import opened OrderDomain
  import opened Payments
  import opened Inventory
  import opened SagaSystem
  import opened SagaView
  import opened SagaInvariant
  import opened OrderSteps
  import opened Ledger

  // ----- order.cancelled -----

  /** A cancelled order holds no stock, so its announcement finds nothing to release. */
  lemma CancelledHoldsNothing(s: Sys, e: Envelope, key: Id)
    requires Inv(s) && RecordOk(s, TopicOrderCancelled, e)
    ensures e.saga in s.order.orders && s.order.orders[e.saga].status == Cancelled
    ensures e.saga !in s.inventory.reservations
    ensures !Release(s.inventory, e.saga, e.key, OrderCancelledConsumer, key).1.released
  {
    var v := ViewOf(s, e.saga);
    assert ViewOk(v, e.saga);
    assert v.cancelled == |Emitted(Outbox(s, OrderService), e.saga, TopicOrderCancelled)|;
  }

  lemma CancelledStepKeeps(s: Sys, key: Id)
    requires Inv(s) && Enabled(s, CancelledStep(key))
    ensures Inv(Next(s, CancelledStep(key)))
  {
    var t := TopicOrderCancelled;
    var e := HeadIsEmitted(s, InventoryService, t);
    CancelledHoldsNothing(s, e, key);
    var s' := Next(s, CancelledStep(key));
    assert s' == s.(inventory := s.inventory.(markers := s.inventory.markers + {(e.key, OrderCancelledConsumer)}),
                    position := Advance(s, InventoryService, t));
    InventoryMoved(s, s', e);
    TransactKeepsChannels(s, s', InventoryService, key);
    MarkedCancelledViews(s, s', e);
  }

  lemma InventoryMoved(s: Sys, s': Sys, e: Envelope)
    requires HasNext(s, InventoryService, TopicOrderCancelled) && e == Head(s, InventoryService, TopicOrderCancelled)
    requires s' == s.(inventory := s.inventory.(markers := s.inventory.markers + {(e.key, OrderCancelledConsumer)}),
                      position := Advance(s, InventoryService, TopicOrderCancelled))
    ensures Remembers(s, s') && MovesPast(s, s') && forall c, u :: Position(s, c, u) <= Position(s', c, u)
  {
  }

  lemma MarkedCancelledViews(s: Sys, s': Sys, e: Envelope)
    requires ViewsOk(s)
    requires s' == s.(inventory := s.inventory.(markers := s.inventory.markers + {(e.key, OrderCancelledConsumer)}),
                      position := s'.position)
    ensures ViewsOk(s')
  {
    forall id ensures ViewOk(ViewOf(s', id), id) {
      assert ViewOf(s', id) == ViewOf(s, id);
    }
  }

  // ----- The reserve call -----

  /** A call in flight asks for exactly what its order asked for, under its order.created key. */
  lemma CallIsTheOrders(s: Sys, saga: Id)
    requires Inv(s) && saga in s.calls
    ensures var v := ViewOf(s, saga);
            && v.order.Some? && |v.created| == 1 && v.payment.Some? && v.payment.value.status != Failed
            && s.calls[saga] == Request(saga, v.created[0], v.order.value.sku, v.order.value.quantity)
            && v.created[0] in s.issued && s.issued[v.created[0]].saga == saga
  {
    var v := ViewOf(s, saga);
    assert ViewOk(v, saga);
    assert TableOk(s.issued, Outbox(s, OrderService), OrderService);
    EmittedIsIssued(s.issued, s.order.outbox, OrderService, saga, TopicOrderCreated, v.created[0]);
  }

  function Answered(v: View, last: bool): View {
    if last then v.(call := None) else v
  }

  function StockRefused(v: View): View {
    v.(executed := true, refused := Once(false), refusedAtPayment := Once(false))
  }

  function StockTaken(v: View, rid: Id): View
    requires v.order.Some?
  {
    var o := v.order.value;
    v.(executed := true, reserved := Once(false), reservation := Some(Reservation(rid, o.sku, o.quantity, Reserved)))
  }

  lemma CallTakesView(v: View, id: Id, last: bool, rid: Id)
    requires ViewOk(v, id) && v.order.Some? && v.call.Some?
    ensures v.executed ==> ViewOk(Answered(v, last), id)
    ensures !v.executed ==> ViewOk(Answered(StockRefused(v), last), id)
    ensures !v.executed ==> ViewOk(Answered(StockTaken(v, rid), last), id)
  {
  }

  /** One appended row, as a consumer that has not accepted it sees it. */
  lemma EvAfterAppend(rows: seq<Row>, r: Row, m: set<Id>, t: Topic)
    requires r.env.key !in m
    requires t == r.env.topic ==> EvOf(rows, m, r.env.saga, t).Absent?
    ensures EvOf(rows + [r], m, r.env.saga, t) == if t == r.env.topic then Once(false) else EvOf(rows, m, r.env.saga, t)
  {
    EmittedAppend(rows, r, r.env.saga, t);
  }

  /** What executing a call for the first time does to the system as a whole. */
  ghost predicate CallDelta(s: Sys, s': Sys, saga: Id, last: bool, key: Id) {
    && s' == s.(inventory := s'.inventory, calls := if last then s.calls - {saga} else s.calls, issued := s'.issued)
    && saga in s.calls
    && s'.inventory.markers == s.inventory.markers + {(s.calls[saga].key, ReserveConsumer)}
    && Transacts(s, s', InventoryService, key)
    && Touches(s, s', saga)
    && (IssuedOk(s) ==> IssuedOk(s'))
  }

  /** The row that a first execution appends. */
  lemma ExecuteAppends(s: Sys, saga: Id, last: bool, rid: Id, key: Id) returns (r: Row)
    requires saga in s.calls && key !in s.issued && s.calls[saga].saga == saga
    requires (s.calls[saga].key, ReserveConsumer) !in s.inventory.markers
    ensures var s' := ExecuteCall(s, saga, last, rid, key);
            && s'.inventory.outbox == s.inventory.outbox + [r]
            && s'.issued == s.issued[key := r.env]
            && r.status == RowPending && r.env.key == key && r.env.saga == saga
            && (if Refuses(s.inventory, s.calls[saga].sku, s.calls[saga].quantity)
                then r.env.topic == TopicReservationFailed && r.env.data.ReservationFailedData?
                else r.env.topic == TopicInventoryReserved)
  {
    r := ExecuteCall(s, saga, last, rid, key).inventory.outbox[|s.inventory.outbox|];
  }

  lemma ExecuteDelta(s: Sys, saga: Id, last: bool, rid: Id, key: Id)
    requires RowsOk(s) && saga in s.calls && key !in s.issued
    requires s.calls[saga].saga == saga
    requires (s.calls[saga].key, ReserveConsumer) !in s.inventory.markers
    requires s.calls[saga].key in s.issued && s.issued[s.calls[saga].key].saga == saga
    ensures CallDelta(s, ExecuteCall(s, saga, last, rid, key), saga, last, key)
  {
    var s' := ExecuteCall(s, saga, last, rid, key);
    var r := ExecuteAppends(s, saga, last, rid, key);
    AppendEmitsOnly(s.inventory.outbox, r);
    assert AgreeAt(s.inventory.reservations, s'.inventory.reservations, saga);
    assert Appends(s.issued, s'.issued, Outbox(s, InventoryService), Outbox(s', InventoryService),
                   InventoryService, key);
  }

  lemma ExecutedView(s: Sys, saga: Id, last: bool, rid: Id, key: Id)
    requires MarkersOk(s) && saga in s.calls && key !in s.issued
    requires (s.calls[saga].key, ReserveConsumer) !in s.inventory.markers
    requires var v := ViewOf(s, saga);
             && v.order.Some? && |v.created| == 1 && v.created[0] in s.issued
             && s.calls[saga] == Request(saga, v.created[0], v.order.value.sku, v.order.value.quantity)
             && v.reservation.None? && v.reserved.Absent? && v.refused.Absent? && v.refusedAtPayment.Absent?
    ensures var v := ViewOf(s, saga);
            ViewOf(ExecuteCall(s, saga, last, rid, key), saga)
            == Answered(if Refuses(s.inventory, s.calls[saga].sku, s.calls[saga].quantity) then StockRefused(v)
                        else StockTaken(v, rid), last)
  {
    var r := ExecuteAppends(s, saga, last, rid, key);
    var rows := s.inventory.outbox;
    EvAfterAppend(rows, r, s.order.markers, TopicInventoryReserved);
    EvAfterAppend(rows, r, s.order.markers, TopicReservationFailed);
    EvAfterAppend(rows, r, s.payment.markers, TopicReservationFailed);
    EmittedAppend(rows, r, saga, TopicInventoryReleased);
  }

  lemma ExecuteView(s: Sys, saga: Id, last: bool, rid: Id, key: Id)
    requires Inv(s) && saga in s.calls && key !in s.issued
    requires (s.calls[saga].key, ReserveConsumer) !in s.inventory.markers
    ensures ViewOk(ViewOf(ExecuteCall(s, saga, last, rid, key), saga), saga)
  {
    var v := ViewOf(s, saga);
    assert ViewOk(v, saga);
    CallIsTheOrders(s, saga);
    CallTakesView(v, saga, last, rid);
    ExecutedView(s, saga, last, rid, key);
  }

  lemma ExecuteStock(s: Sys, saga: Id, last: bool, rid: Id, key: Id)
    requires Inv(s) && saga in s.calls
    ensures StockInv(ExecuteCall(s, saga, last, rid, key))
  {
    CallIsTheOrders(s, saga);
    var q := s.calls[saga];
    assert ViewOk(ViewOf(s, saga), saga);
    ReserveBalanceIsExact(s.inventory, q.saga, q.key, q.sku, q.quantity, rid, key);
    ReserveKeepsSound(s.inventory, q.saga, q.key, q.sku, q.quantity, rid, key);
  }

  lemma ExecuteFirstKeeps(s: Sys, saga: Id, last: bool, rid: Id, key: Id)
    requires Inv(s) && saga in s.calls && key !in s.issued
    requires (s.calls[saga].key, ReserveConsumer) !in s.inventory.markers
    ensures Inv(ExecuteCall(s, saga, last, rid, key))
  {
    var s' := ExecuteCall(s, saga, last, rid, key);
    CallIsTheOrders(s, saga);
    ExecuteDelta(s, saga, last, rid, key);
    ExecuteView(s, saga, last, rid, key);
    ExecuteStock(s, saga, last, rid, key);
    TransactKeepsChannels(s, s', InventoryService, key);
    ViewsKept(s, s', saga);
  }

  /** Removing a call changes nothing but that saga's call and lost flag. */
  lemma CallGoneKeeps(s: Sys, s': Sys, saga: Id)
    requires Inv(s) && saga in s.calls
    requires s' == s.(calls := s.calls - {saga}, lost := s'.lost)
    requires s'.lost == if ViewOf(s, saga).executed then s.lost else s.lost + {saga}
    ensures Inv(s')
  {
    var v := ViewOf(s, saga);
    assert ViewOk(v, saga);
    assert Touches(s, s', saga);
    assert ViewOf(s', saga) == v.(call := None, lost := saga in s'.lost);
    ViewsKept(s, s', saga);
    CallGoneChannels(s, s');
  }

  lemma CallGoneChannels(s: Sys, s': Sys)
    requires ChannelInv(s) && s' == s.(calls := s'.calls, lost := s'.lost)
    ensures ChannelInv(s')
  {
    forall svc ensures Outbox(s', svc) == Outbox(s, svc) {}
    forall t ensures Log(s', t) == Log(s, t) {}
    forall c ensures TableOk(s'.issued, Outbox(s', c), c) {
      assert TableOk(s.issued, Outbox(s, c), c);
    }
    forall t, i | 0 <= i < |Log(s', t)| ensures RecordOk(s', t, Log(s', t)[i]) {
      assert RecordOk(s, t, Log(s, t)[i]);
    }
    TransactKeepsHandled(s, s');
  }

  lemma ExecuteStepKeeps(s: Sys, saga: Id, last: bool, rid: Id, key: Id)
    requires Inv(s) && Enabled(s, ExecuteStep(saga, last, rid, key))
    ensures Inv(Next(s, ExecuteStep(saga, last, rid, key)))
  {
    if (s.calls[saga].key, ReserveConsumer) !in s.inventory.markers {
      ExecuteFirstKeeps(s, saga, last, rid, key);
    } else {
      CallIsTheOrders(s, saga);
      var s' := Next(s, ExecuteStep(saga, last, rid, key));
      assert s' == s.(calls := if last then s.calls - {saga} else s.calls);
      if last {
        CallGoneKeeps(s, s', saga);
      }
    }
  }

  lemma DropStepKeeps(s: Sys, saga: Id)
    requires Inv(s) && Enabled(s, DropStep(saga))
    ensures Inv(Next(s, DropStep(saga)))
  {
    CallIsTheOrders(s, saga);
    CallGoneKeeps(s, Next(s, DropStep(saga)), saga);
  }
}
