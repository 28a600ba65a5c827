/**
 The three services, the broker and the reserve call as one transition system.
 Every database transaction is one step; the environment may interleave steps in any order,
 resend rows, rewind consumers to anything not yet committed, and lose or repeat reserve calls.
 */
module SagaSystem {
  import opened Messages
  import opened Orders
  import opened Payments
  import opened Inventory

  /**
   `calls` holds the reserve calls in flight, by saga; `lost` the sagas whose call was dropped
   before it was executed; `issued` every UUID drawn for an envelope, with that envelope.
   */
  datatype Sys = Sys(
    order: OrderDb,
    payment: PaymentDb,
    inventory: InventoryDb,
    logs: Logs,
    position: map<(Service, Topic), nat>,
    committed: map<(Service, Topic), nat>,
    calls: map<Id, Request>,
    lost: set<Id>,
    issued: map<Id, Envelope>)

  datatype Step =
    | CreateStep(id: Id, sku: Sku, quantity: int, amount: real, key: Id)
    // Relays: a send, a failed send, and the mark that follows a send.
    | SendStep(svc: Service, row: nat)
    | SendFailsStep(svc: Service, row: nat)
    | MarkStep(svc: Service, row: nat)
    // Consumers: handle the record at the current position.
    | OrderStep(topic: Topic, key: Id)
    | CreatedStep(forceFailure: bool, key: Id)
    | ReservationFailedStep(key: Id)
    | CancelledStep(key: Id)
    | CommitStep(svc: Service, topic: Topic, upTo: nat)
    | RewindStep(svc: Service, topic: Topic, to: nat)
    // The reserve call: executed (`last` when its answer also arrives), or dropped.
    | ExecuteStep(saga: Id, last: bool, reservationId: Id, key: Id)
    | DropStep(saga: Id)

  function Outbox(s: Sys, svc: Service): seq<Row> {
    match svc
    case OrderService => s.order.outbox
    case PaymentService => s.payment.outbox
    case InventoryService => s.inventory.outbox
  }

  function WithOutbox(s: Sys, svc: Service, rows: seq<Row>): Sys {
    match svc
    case OrderService => s.(order := s.order.(outbox := rows))
    case PaymentService => s.(payment := s.payment.(outbox := rows))
    case InventoryService => s.(inventory := s.inventory.(outbox := rows))
  }

  function Log(s: Sys, t: Topic): seq<Envelope> {
    LogOf(s.logs, t)
  }

  function Offset(m: map<(Service, Topic), nat>, svc: Service, t: Topic): nat {
    if (svc, t) in m then m[(svc, t)] else 0
  }

  lemma OffsetAfter(m: map<(Service, Topic), nat>, svc: Service, t: Topic, n: nat, m': map<(Service, Topic), nat>)
    requires m' == m[(svc, t) := n]
    ensures Offset(m', svc, t) == n
    ensures forall c, u :: c != svc || u != t ==> Offset(m', c, u) == Offset(m, c, u)
  {
    forall c, u | c != svc || u != t ensures Offset(m', c, u) == Offset(m, c, u) {
      assert (c, u) != (svc, t);
      assert (c, u) in m' <==> (c, u) in m;
    }
  }

  function Position(s: Sys, svc: Service, t: Topic): nat {
    Offset(s.position, svc, t)
  }

  function Committed(s: Sys, svc: Service, t: Topic): nat {
    Offset(s.committed, svc, t)
  }

  predicate HasNext(s: Sys, svc: Service, t: Topic) {
    Consumes(svc, t) && Position(s, svc, t) < |Log(s, t)|
  }

  function Head(s: Sys, svc: Service, t: Topic): Envelope
    requires HasNext(s, svc, t)
  {
    Log(s, t)[Position(s, svc, t)]
  }

  function Advance(s: Sys, svc: Service, t: Topic): map<(Service, Topic), nat> {
    s.position[(svc, t) := Position(s, svc, t) + 1]
  }

  /** Book the UUID of a row that a transaction appended. */
  function Register(issued: map<Id, Envelope>, before: seq<Row>, after: seq<Row>): map<Id, Envelope> {
    if |before| < |after| then issued[after[|before|].env.key := after[|before|].env] else issued
  }

  predicate Enabled(s: Sys, st: Step) {
    match st
    case CreateStep(id, sku, quantity, amount, key) =>
      key !in s.issued && CreateOrder(s.order, id, sku, quantity, amount, key).Some?
    // A relay sends what it fetched earlier, so the row may have been marked by another relay since.
    case SendStep(svc, row) => row < |Outbox(s, svc)|
    case SendFailsStep(svc, row) => row < |Outbox(s, svc)|
    case MarkStep(svc, row) =>
      row < |Outbox(s, svc)| && Outbox(s, svc)[row].env in Log(s, Outbox(s, svc)[row].env.topic)
    case OrderStep(topic, key) => key !in s.issued && HasNext(s, OrderService, topic)
    case CreatedStep(_, key) => key !in s.issued && HasNext(s, PaymentService, TopicOrderCreated)
    case ReservationFailedStep(key) => key !in s.issued && HasNext(s, PaymentService, TopicReservationFailed)
    case CancelledStep(key) => key !in s.issued && HasNext(s, InventoryService, TopicOrderCancelled)
    case CommitStep(svc, topic, upTo) => Committed(s, svc, topic) <= upTo <= Position(s, svc, topic)
    case RewindStep(svc, topic, to) => Committed(s, svc, topic) <= to <= Position(s, svc, topic)
    case ExecuteStep(saga, _, _, key) => key !in s.issued && saga in s.calls
    case DropStep(saga) => saga in s.calls
  }

  function Send(s: Sys, env: Envelope): Sys {
    s.(logs := s.logs[env.topic := Log(s, env.topic) + [env]])
  }

  function HandleAtOrder(s: Sys, t: Topic, key: Id): Sys
    requires HasNext(s, OrderService, t)
  {
    var r := HandleEvent(s.order, Head(s, OrderService, t), key);
    if r.1.IsError() then s
    else
      s.(order := r.0,
         position := Advance(s, OrderService, t),
         issued := Register(s.issued, s.order.outbox, r.0.outbox))
  }

  function HandleCreatedAtPayment(s: Sys, forceFailure: bool, key: Id): Sys
    requires HasNext(s, PaymentService, TopicOrderCreated)
  {
    var env := Head(s, PaymentService, TopicOrderCreated);
    var r := HandleCreated(s.payment, env, forceFailure, key);
    s.(payment := r.0,
       calls := if r.1.Some? then s.calls[env.saga := r.1.value] else s.calls,
       position := Advance(s, PaymentService, TopicOrderCreated),
       issued := Register(s.issued, s.payment.outbox, r.0.outbox))
  }

  function HandleFailureAtPayment(s: Sys, key: Id): Sys
    requires HasNext(s, PaymentService, TopicReservationFailed)
  {
    var db := HandleCompensation(s.payment, Head(s, PaymentService, TopicReservationFailed), key);
    s.(payment := db,
       position := Advance(s, PaymentService, TopicReservationFailed),
       issued := Register(s.issued, s.payment.outbox, db.outbox))
  }

  function HandleCancelledAtInventory(s: Sys, key: Id): Sys
    requires HasNext(s, InventoryService, TopicOrderCancelled)
  {
    var env := Head(s, InventoryService, TopicOrderCancelled);
    var db := Release(s.inventory, env.saga, env.key, OrderCancelledConsumer, key).0;
    s.(inventory := db,
       position := Advance(s, InventoryService, TopicOrderCancelled),
       issued := Register(s.issued, s.inventory.outbox, db.outbox))
  }

  function ExecuteCall(s: Sys, saga: Id, last: bool, reservationId: Id, key: Id): Sys
    requires saga in s.calls
  {
    var q := s.calls[saga];
    var db := Reserve(s.inventory, q.saga, q.key, q.sku, q.quantity, reservationId, key).0;
    s.(inventory := db,
       calls := if last then s.calls - {saga} else s.calls,
       issued := Register(s.issued, s.inventory.outbox, db.outbox))
  }

  function DropCall(s: Sys, saga: Id): Sys
    requires saga in s.calls
  {
    s.(calls := s.calls - {saga},
       lost := if (s.calls[saga].key, ReserveConsumer) in s.inventory.markers then s.lost else s.lost + {saga})
  }

  function Next(s: Sys, st: Step): Sys
    requires Enabled(s, st)
  {
    match st
    case CreateStep(id, sku, quantity, amount, key) =>
      var db := CreateOrder(s.order, id, sku, quantity, amount, key).value;
      s.(order := db, issued := Register(s.issued, s.order.outbox, db.outbox))
    case SendStep(svc, row) => Send(s, Outbox(s, svc)[row].env)
    case SendFailsStep(svc, row) =>
      var rows := Outbox(s, svc);
      WithOutbox(s, svc, rows[row := rows[row].(attempts := rows[row].attempts + 1)])
    case MarkStep(svc, row) =>
      var rows := Outbox(s, svc);
      WithOutbox(s, svc, rows[row := rows[row].(status := RowPublished)])
    case OrderStep(topic, key) => HandleAtOrder(s, topic, key)
    case CreatedStep(forceFailure, key) => HandleCreatedAtPayment(s, forceFailure, key)
    case ReservationFailedStep(key) => HandleFailureAtPayment(s, key)
    case CancelledStep(key) => HandleCancelledAtInventory(s, key)
    case CommitStep(svc, topic, upTo) => s.(committed := s.committed[(svc, topic) := upTo])
    case RewindStep(svc, topic, to) => s.(position := s.position[(svc, topic) := to])
    case ExecuteStep(saga, last, reservationId, key) => ExecuteCall(s, saga, last, reservationId, key)
    case DropStep(saga) => DropCall(s, saga)
  }

  lemma SendGrowsLogs(s: Sys, env: Envelope)
    ensures LogsGrow(s.logs, Send(s, env).logs) && env in Log(Send(s, env), env.topic)
  {
    forall t ensures LogOf(s.logs, t) <= LogOf(Send(s, env).logs, t) {}
    var log := Log(Send(s, env), env.topic);
    assert log[|log| - 1] == env;
  }

  lemma OutboxIsNoLog(s: Sys, svc: Service, rows: seq<Row>)
    ensures WithOutbox(s, svc, rows).logs == s.logs
  {
  }

  lemma OnlySendsLog(s: Sys, st: Step)
    requires Enabled(s, st) && !st.SendStep?
    ensures Next(s, st).logs == s.logs
  {
    if st.SendFailsStep? || st.MarkStep? {
      OutboxIsNoLog(s, st.svc, Outbox(Next(s, st), st.svc));
    }
  }

  lemma StepGrowsLogs(s: Sys, st: Step)
    requires Enabled(s, st)
    ensures LogsGrow(s.logs, Next(s, st).logs)
  {
    if st.SendStep? {
      SendGrowsLogs(s, Outbox(s, st.svc)[st.row].env);
    } else {
      OnlySendsLog(s, st);
    }
  }

  predicate Init(s: Sys) {
    && s.order == OrderDb(map[], {}, [])
    && s.payment == PaymentDb(map[], {}, [])
    && s.inventory.reservations == map[] && s.inventory.markers == {} && s.inventory.outbox == []
    && (forall sku :: sku in s.inventory.stock ==>
          s.inventory.stock[sku].available >= 0 && s.inventory.stock[sku].reserved == 0)
    && s.logs == map[] && s.position == map[] && s.committed == map[]
    && s.calls == map[] && s.lost == {} && s.issued == map[]
  }

  predicate CanRun(s: Sys, steps: seq<Step>)
    decreases |steps|
  {
    steps == [] || (Enabled(s, steps[0]) && CanRun(Next(s, steps[0]), steps[1..]))
  }

  function Run(s: Sys, steps: seq<Step>): Sys
    requires CanRun(s, steps)
    decreases |steps|
  {
    if steps == [] then s else Run(Next(s, steps[0]), steps[1..])
  }
}
