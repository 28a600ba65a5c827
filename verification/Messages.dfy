/** Topics, envelopes and outbox rows shared by the three services. */
module Messages {

  datatype Option<+T> = None | Some(value: T)

  /** A UUID: an order (saga) id, an idempotency key or a reservation id. */
  type Id = nat

  type Sku = string

  datatype Topic =
    | TopicOrderCreated
    | TopicOrderCancelled
    | TopicPaymentProcessed
    | TopicPaymentFailed
    | TopicPaymentRefunded
    | TopicInventoryReserved
    | TopicReservationFailed
    | TopicInventoryReleased

  datatype Service = OrderService | PaymentService | InventoryService

  /** The `data` object of an envelope. */
  datatype Data =
    | OrderCreatedData(sku: Sku, quantity: int, amount: real)
    | OrderCancelledData
    | PaymentData(amount: real)
    | ReservedData(sku: Sku, quantity: int, reservationId: Id)
    | ReservationFailedData(sku: Sku, quantity: int)
    | ReleasedData

  datatype Envelope = Envelope(key: Id, saga: Id, topic: Topic, data: Data)

  datatype RowStatus = RowPending | RowPublished

  /** An outbox row; an outbox is the sequence of its rows in creation order. */
  datatype Row = Row(env: Envelope, status: RowStatus, attempts: nat)

  function NewRow(env: Envelope): Row {
    Row(env, RowPending, 0)
  }

  /** `after` is `before` with one new row for `env`, not yet published and never tried. */
  predicate Announces(before: seq<Row>, after: seq<Row>, env: Envelope) {
    |after| == |before| + 1 && after[..|before|] == before && after[|before|] == Row(env, RowPending, 0)
  }

  function Producer(t: Topic): Service {
    match t
    case TopicOrderCreated | TopicOrderCancelled => OrderService
    case TopicPaymentProcessed | TopicPaymentFailed | TopicPaymentRefunded => PaymentService
    case TopicInventoryReserved | TopicReservationFailed | TopicInventoryReleased => InventoryService
  }

  predicate Consumes(c: Service, t: Topic) {
    match c
    case OrderService =>
      t in {TopicPaymentProcessed, TopicPaymentFailed, TopicInventoryReserved,
            TopicReservationFailed, TopicPaymentRefunded}
    case PaymentService => t in {TopicOrderCreated, TopicReservationFailed}
    case InventoryService => t == TopicOrderCancelled
  }

  // ----- What an outbox has emitted for one saga on one topic -----

  /** The idempotency keys of the rows for saga `id` on topic `t`, in creation order. */
  function Emitted(rows: seq<Row>, id: Id, t: Topic): seq<Id> {
    if rows == [] then []
    else
      var last := rows[|rows| - 1].env;
      Emitted(rows[..|rows| - 1], id, t) + if last.saga == id && last.topic == t then [last.key] else []
  }

  predicate SameEnvelopes(rows: seq<Row>, rows': seq<Row>) {
    |rows| == |rows'| && forall i :: 0 <= i < |rows| ==> rows'[i].env == rows[i].env
  }

  lemma EmittedAppend(rows: seq<Row>, r: Row, id: Id, t: Topic)
    ensures Emitted(rows + [r], id, t)
         == Emitted(rows, id, t) + if r.env.saga == id && r.env.topic == t then [r.env.key] else []
  {
    assert (rows + [r])[..|rows|] == rows;
  }

  lemma {:induction false} EmittedSame(rows: seq<Row>, rows': seq<Row>, id: Id, t: Topic)
    requires SameEnvelopes(rows, rows')
    ensures Emitted(rows', id, t) == Emitted(rows, id, t)
  {
    if rows != [] {
      EmittedSame(rows[..|rows| - 1], rows'[..|rows| - 1], id, t);
    }
  }

  /** Every row shows up in what its saga has emitted on its topic. */
  lemma {:induction false} EmittedHasRow(rows: seq<Row>, i: nat)
    requires i < |rows|
    ensures rows[i].env.key in Emitted(rows, rows[i].env.saga, rows[i].env.topic)
  {
    if i < |rows| - 1 {
      EmittedHasRow(rows[..|rows| - 1], i);
    }
  }

  /** Every emitted key comes from a row of that saga and topic. */
  lemma {:induction false} EmittedFromRow(rows: seq<Row>, id: Id, t: Topic, k: Id) returns (i: nat)
    requires k in Emitted(rows, id, t)
    ensures i < |rows| && rows[i].env.key == k && rows[i].env.saga == id && rows[i].env.topic == t
  {
    var last := rows[|rows| - 1].env;
    if last.saga == id && last.topic == t && last.key == k {
      i := |rows| - 1;
    } else {
      i := EmittedFromRow(rows[..|rows| - 1], id, t, k);
    }
  }

  // ----- Topic logs -----

  type Logs = map<Topic, seq<Envelope>>

  function LogOf(logs: Logs, t: Topic): seq<Envelope> {
    if t in logs then logs[t] else []
  }

  /** Topics are only ever appended to. */
  ghost predicate LogsGrow(logs: Logs, logs': Logs) {
    forall t :: LogOf(logs, t) <= LogOf(logs', t)
  }
}
