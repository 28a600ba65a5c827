/** The joint inductive invariant: what every step of the system keeps. */
module SagaInvariant {
  import opened Messages
  import opened Inventory
  import opened SagaSystem
  import opened SagaView
  import opened Ledger

  // ----- Channels -----

  ghost predicate Registered(issued: map<Id, Envelope>, env: Envelope) {
    env.key in issued && issued[env.key] == env
  }

  ghost predicate TableOk(issued: map<Id, Envelope>, rows: seq<Row>, svc: Service) {
    forall i :: 0 <= i < |rows| ==> Registered(issued, rows[i].env) && Producer(rows[i].env.topic) == svc
  }

  ghost predicate RowsOk(s: Sys) {
    forall svc :: TableOk(s.issued, Outbox(s, svc), svc)
  }

  /** A record of topic `t` was sent from a row of its producer's outbox. */
  ghost predicate RecordOk(s: Sys, t: Topic, e: Envelope) {
    e.topic == t && Registered(s.issued, e) && e.key in Emitted(Outbox(s, Producer(t)), e.saga, t)
  }

  ghost predicate LogsOk(s: Sys) {
    forall t, i :: 0 <= i < |Log(s, t)| ==> RecordOk(s, t, Log(s, t)[i])
  }

  /** A PUBLISHED row has been sent. */
  ghost predicate PublishedOk(s: Sys) {
    forall svc, i :: 0 <= i < |Outbox(s, svc)| && Outbox(s, svc)[i].status == RowPublished ==>
      Outbox(s, svc)[i].env in Log(s, Outbox(s, svc)[i].env.topic)
  }

  ghost predicate OffsetsOk(s: Sys) {
    forall svc, t :: Committed(s, svc, t) <= Position(s, svc, t) <= |Log(s, t)|
  }

  /** The consumer's tables show that it has accepted the message. */
  ghost predicate HandledBy(s: Sys, svc: Service, e: Envelope) {
    match svc
    case OrderService => e.key in s.order.markers
    case PaymentService => if e.topic == TopicOrderCreated then e.saga in s.payment.payments
                           else e.key in s.payment.markers
    case InventoryService => (e.key, OrderCancelledConsumer) in s.inventory.markers
  }

  /** Nothing below a consumer's position is unhandled. */
  ghost predicate HandledOk(s: Sys) {
    forall svc, t, i :: Consumes(svc, t) && 0 <= i < Position(s, svc, t) && i < |Log(s, t)| ==>
      HandledBy(s, svc, Log(s, t)[i])
  }

  // ----- UUIDs -----

  ghost predicate MarkersOk(s: Sys) {
    && s.order.markers <= s.issued.Keys
    && s.payment.markers <= s.issued.Keys
    && forall m :: m in s.inventory.markers ==> m.0 in s.issued
  }

  /** inventory.reservation_failed carries no amount, so payment.refunded reports zero. */
  ghost predicate IssuedOk(s: Sys) {
    forall k :: k in s.issued ==>
      && s.issued[k].key == k
      && (s.issued[k].topic == TopicReservationFailed ==> s.issued[k].data.ReservationFailedData?)
      && (s.issued[k].topic == TopicPaymentRefunded ==> s.issued[k].data == PaymentData(0.0))
  }

  ghost predicate ViewsOk(s: Sys) {
    forall id :: ViewOk(ViewOf(s, id), id)
  }

  ghost predicate StockInv(s: Sys) {
    Balanced(s.inventory) && SoundReservations(s.inventory) && NoNegativeStock(s.inventory)
  }

  ghost predicate ChannelInv(s: Sys) {
    RowsOk(s) && LogsOk(s) && PublishedOk(s) && OffsetsOk(s) && HandledOk(s)
  }

  ghost predicate Inv(s: Sys) {
    ChannelInv(s) && MarkersOk(s) && IssuedOk(s) && ViewsOk(s) && StockInv(s)
  }

  // ----- Emitted keys and markers -----

  lemma EmittedIsIssued(issued: map<Id, Envelope>, rows: seq<Row>, svc: Service, id: Id, t: Topic, k: Id)
    requires TableOk(issued, rows, svc) && k in Emitted(rows, id, t)
    ensures k in issued && issued[k].saga == id && issued[k].topic == t
  {
    var i := EmittedFromRow(rows, id, t, k);
    assert Registered(issued, rows[i].env);
  }

  /** Accepting a message does not touch any other saga, nor any other topic of its own. */
  lemma EvMarkOther(issued: map<Id, Envelope>, rows: seq<Row>, svc: Service, markers: set<Id>, k: Id, id: Id, t: Topic)
    requires TableOk(issued, rows, svc)
    requires k in issued && (issued[k].saga != id || issued[k].topic != t)
    ensures EvOf(rows, markers + {k}, id, t) == EvOf(rows, markers, id, t)
  {
    var ks := Emitted(rows, id, t);
    if |ks| == 1 {
      EmittedIsIssued(issued, rows, svc, id, t, ks[0]);
    }
  }

  lemma EvAppendOther(rows: seq<Row>, r: Row, markers: set<Id>, id: Id, t: Topic)
    requires r.env.saga != id || r.env.topic != t
    ensures EvOf(rows + [r], markers, id, t) == EvOf(rows, markers, id, t)
  {
    EmittedAppend(rows, r, id, t);
  }

  // ----- A step that touches one saga leaves the view of every other saga alone -----

  ghost predicate AgreeAt<V>(m: map<Id, V>, m': map<Id, V>, saga: Id) {
    forall id :: id != saga ==> Lookup(m', id) == Lookup(m, id)
  }

  /** New markers belong to messages of `saga`. */
  ghost predicate MarksOnly(issued: map<Id, Envelope>, markers: set<Id>, markers': set<Id>, saga: Id) {
    && markers <= markers'
    && forall k :: k in markers' && k !in markers ==> k in issued && issued[k].saga == saga
  }

  /** New rows belong to `saga`. */
  ghost predicate EmitsOnly(rows: seq<Row>, rows': seq<Row>, saga: Id) {
    forall id, t :: id != saga ==> Emitted(rows', id, t) == Emitted(rows, id, t)
  }

  ghost predicate Touches(s: Sys, s': Sys, saga: Id) {
    && AgreeAt(s.order.orders, s'.order.orders, saga)
    && AgreeAt(s.payment.payments, s'.payment.payments, saga)
    && AgreeAt(s.inventory.reservations, s'.inventory.reservations, saga)
    && AgreeAt(s.calls, s'.calls, saga)
    && (forall id :: id != saga ==> (id in s'.lost <==> id in s.lost))
    && MarksOnly(s.issued, s.order.markers, s'.order.markers, saga)
    && MarksOnly(s.issued, s.payment.markers, s'.payment.markers, saga)
    && s.inventory.markers <= s'.inventory.markers
    && (forall m :: m in s'.inventory.markers && m !in s.inventory.markers ==>
          m.0 in s.issued && s.issued[m.0].saga == saga)
    && EmitsOnly(s.order.outbox, s'.order.outbox, saga)
    && EmitsOnly(s.payment.outbox, s'.payment.outbox, saga)
    && EmitsOnly(s.inventory.outbox, s'.inventory.outbox, saga)
    && (forall k :: k in s.issued ==> k in s'.issued && s'.issued[k] == s.issued[k])
  }

  lemma EvUntouched(issued: map<Id, Envelope>, rows: seq<Row>, rows': seq<Row>, svc: Service,
                    markers: set<Id>, markers': set<Id>, saga: Id, id: Id, t: Topic)
    requires TableOk(issued, rows, svc) && id != saga
    requires MarksOnly(issued, markers, markers', saga) && EmitsOnly(rows, rows', saga)
    ensures EvOf(rows', markers', id, t) == EvOf(rows, markers, id, t)
  {
    var ks := Emitted(rows, id, t);
    assert Emitted(rows', id, t) == ks;
    if |ks| == 1 {
      EmittedIsIssued(issued, rows, svc, id, t, ks[0]);
    }
  }

  lemma OtherViewsUntouched(s: Sys, s': Sys, saga: Id, id: Id)
    requires RowsOk(s) && Touches(s, s', saga) && id != saga
    ensures ViewOf(s', id) == ViewOf(s, id)
  {
    var i, m, m' := s.issued, s.order.markers, s'.order.markers;
    assert TableOk(i, Outbox(s, OrderService), OrderService);
    assert TableOk(i, Outbox(s, PaymentService), PaymentService);
    assert TableOk(i, Outbox(s, InventoryService), InventoryService);
    var p, p', q, q' := s.payment.outbox, s'.payment.outbox, s.inventory.outbox, s'.inventory.outbox;
    EvUntouched(i, p, p', PaymentService, m, m', saga, id, TopicPaymentProcessed);
    EvUntouched(i, p, p', PaymentService, m, m', saga, id, TopicPaymentFailed);
    EvUntouched(i, p, p', PaymentService, m, m', saga, id, TopicPaymentRefunded);
    EvUntouched(i, q, q', InventoryService, m, m', saga, id, TopicInventoryReserved);
    EvUntouched(i, q, q', InventoryService, m, m', saga, id, TopicReservationFailed);
    EvUntouched(i, q, q', InventoryService, s.payment.markers, s'.payment.markers, saga, id, TopicReservationFailed);
    var created := Emitted(s.order.outbox, id, TopicOrderCreated);
    assert Emitted(s'.order.outbox, id, TopicOrderCreated) == created;
    assert Emitted(s'.order.outbox, id, TopicOrderCancelled) == Emitted(s.order.outbox, id, TopicOrderCancelled);
    assert Emitted(s'.inventory.outbox, id, TopicInventoryReleased)
           == Emitted(s.inventory.outbox, id, TopicInventoryReleased);
    if |created| == 1 {
      EmittedIsIssued(i, s.order.outbox, OrderService, id, TopicOrderCreated, created[0]);
    }
  }

  /** To keep every saga's view right it is enough to look at the one saga that is touched. */
  lemma ViewsKept(s: Sys, s': Sys, saga: Id)
    requires RowsOk(s) && ViewsOk(s) && Touches(s, s', saga)
    requires ViewOk(ViewOf(s', saga), saga)
    ensures ViewsOk(s')
  {
    forall id ensures ViewOk(ViewOf(s', id), id) {
      if id != saga {
        OtherViewsUntouched(s, s', saga, id);
      }
    }
  }

  // ----- A transaction that appends at most one row keeps the channels -----

  /** `svc` commits a transaction; the row it appends, if any, carries the fresh `key`. */
  ghost predicate Transacts(s: Sys, s': Sys, svc: Service, key: Id) {
    && key !in s.issued
    && s'.logs == s.logs && s'.committed == s.committed
    && (forall c :: c != svc ==> Outbox(s', c) == Outbox(s, c))
    && Appends(s.issued, s'.issued, Outbox(s, svc), Outbox(s', svc), svc, key)
  }

  ghost predicate Appends(issued: map<Id, Envelope>, issued': map<Id, Envelope>, rows: seq<Row>, rows': seq<Row>,
                    svc: Service, key: Id)
  {
    || (rows' == rows && issued' == issued)
    || (&& |rows'| == |rows| + 1
        && rows' == rows + [rows'[|rows|]]
        && rows'[|rows|].env.key == key
        && rows'[|rows|].status == RowPending
        && Producer(rows'[|rows|].env.topic) == svc
        && issued' == issued[key := rows'[|rows|].env])
  }

  lemma EmittedGrows(rows: seq<Row>, rows': seq<Row>, id: Id, t: Topic, k: Id)
    requires rows' == rows || (|rows'| == |rows| + 1 && rows' == rows + [rows'[|rows|]])
    requires k in Emitted(rows, id, t)
    ensures k in Emitted(rows', id, t)
  {
    if rows' != rows {
      EmittedAppend(rows, rows'[|rows|], id, t);
    }
  }

  lemma TransactKeepsRows(s: Sys, s': Sys, svc: Service, key: Id)
    requires RowsOk(s) && Transacts(s, s', svc, key)
    ensures RowsOk(s')
  {
    forall c ensures TableOk(s'.issued, Outbox(s', c), c) {
      assert TableOk(s.issued, Outbox(s, c), c);
    }
  }

  lemma TransactKeepsLogs(s: Sys, s': Sys, svc: Service, key: Id)
    requires LogsOk(s) && Transacts(s, s', svc, key)
    ensures LogsOk(s')
  {
    forall t, i | 0 <= i < |Log(s', t)| ensures RecordOk(s', t, Log(s', t)[i]) {
      var e := Log(s, t)[i];
      assert RecordOk(s, t, e);
      EmittedGrows(Outbox(s, Producer(t)), Outbox(s', Producer(t)), e.saga, t, e.key);
    }
  }

  lemma TransactKeepsPublished(s: Sys, s': Sys, svc: Service, key: Id)
    requires PublishedOk(s) && Transacts(s, s', svc, key)
    ensures PublishedOk(s')
  {
    forall c, i | 0 <= i < |Outbox(s', c)| && Outbox(s', c)[i].status == RowPublished
      ensures Outbox(s', c)[i].env in Log(s', Outbox(s', c)[i].env.topic)
    {
      assert Outbox(s, c)[i] == Outbox(s', c)[i];
    }
  }

  /** The tables only grow in what they say about accepted messages. */
  ghost predicate Remembers(s: Sys, s': Sys) {
    && s.order.markers <= s'.order.markers
    && s.payment.payments.Keys <= s'.payment.payments.Keys
    && s.payment.markers <= s'.payment.markers
    && s.inventory.markers <= s'.inventory.markers
  }

  /** Positions move only past a message that has been accepted. */
  ghost predicate MovesPast(s: Sys, s': Sys) {
    forall svc, t ::
      || Position(s', svc, t) <= Position(s, svc, t)
      || (&& HasNext(s, svc, t) && Position(s', svc, t) == Position(s, svc, t) + 1
          && HandledBy(s', svc, Head(s, svc, t)))
  }

  lemma TransactKeepsHandled(s: Sys, s': Sys)
    requires HandledOk(s) && OffsetsOk(s) && s'.logs == s.logs && s'.committed == s.committed
    requires Remembers(s, s') && MovesPast(s, s')
    requires forall svc, t :: Position(s, svc, t) <= Position(s', svc, t)
    ensures HandledOk(s') && OffsetsOk(s')
  {
    forall svc, t, i | Consumes(svc, t) && 0 <= i < Position(s', svc, t) && i < |Log(s', t)|
      ensures HandledBy(s', svc, Log(s', t)[i])
    {
      if i < Position(s, svc, t) {
        assert HandledBy(s, svc, Log(s, t)[i]);
      }
    }
    forall svc, t ensures Committed(s', svc, t) <= Position(s', svc, t) <= |Log(s', t)| {
      assert Committed(s', svc, t) == Committed(s, svc, t);
    }
  }

  lemma TransactKeepsChannels(s: Sys, s': Sys, svc: Service, key: Id)
    requires ChannelInv(s) && Transacts(s, s', svc, key)
    requires Remembers(s, s') && MovesPast(s, s')
    requires forall c, t :: Position(s, c, t) <= Position(s', c, t)
    ensures ChannelInv(s')
  {
    TransactKeepsRows(s, s', svc, key);
    TransactKeepsLogs(s, s', svc, key);
    TransactKeepsPublished(s, s', svc, key);
    TransactKeepsHandled(s, s');
  }
}
