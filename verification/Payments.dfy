/** The Payment service's tables, its saga step and its compensation. */
module Payments {
  import opened Messages

  datatype PaymentStatus = Processed | Failed | Refunded

  datatype PaymentRow = PaymentRow(status: PaymentStatus, amount: real)

  /** payments (unique on saga_id), processed_messages (the refund consumer) and outbox. */
  datatype PaymentDb = PaymentDb(payments: map<Id, PaymentRow>, markers: set<Id>, outbox: seq<Row>)

  /** A ReserveStock request on the wire. */
  datatype Request = Request(saga: Id, key: Id, sku: Sku, quantity: int)

  const MAGIC_FAILURE_AMOUNT := 66.06
  const AMOUNT_EPSILON := 0.005

  function Abs(x: real): real {
    if x < 0.0 then -x else x
  }

  predicate Approved(amount: real, forceFailure: bool) {
    !forceFailure && !(Abs(amount - MAGIC_FAILURE_AMOUNT) < AMOUNT_EPSILON)
  }

  /** Fields read with a default when the data object lacks them. */
  function AmountOf(d: Data): real {
    match d
    case OrderCreatedData(_, _, a) => a
    case PaymentData(a) => a
    case _ => 0.0
  }

  function SkuOf(d: Data): Sku {
    match d
    case OrderCreatedData(s, _, _) => s
    case ReservedData(s, _, _) => s
    case ReservationFailedData(s, _) => s
    case _ => ""
  }

  function QuantityOf(d: Data): int {
    match d
    case OrderCreatedData(_, q, _) => q
    case ReservedData(_, q, _) => q
    case ReservationFailedData(_, q) => q
    case _ => 0
  }

  function PaymentEnvelope(key: Id, saga: Id, status: PaymentStatus, amount: real): Envelope {
    var topic := match status
                 case Processed => TopicPaymentProcessed
                 case Failed => TopicPaymentFailed
                 case Refunded => TopicPaymentRefunded;
    Envelope(key, saga, topic, PaymentData(amount))
  }

  /** INSERT ... ON CONFLICT (saga_id) DO NOTHING, with its event; true when newly created. */
  function RecordPayment(db: PaymentDb, saga: Id, amount: real, status: PaymentStatus, ob: Envelope)
    : (PaymentDb, bool)
  {
    if saga in db.payments then (db, false)
    else (PaymentDb(db.payments[saga := PaymentRow(status, amount)], db.markers, db.outbox + [NewRow(ob)]), true)
  }

  /** Marker, PROCESSED -> REFUNDED, and the event only if a row changed; false on a duplicate. */
  function RefundPayment(db: PaymentDb, saga: Id, key: Id, ob: Envelope): (PaymentDb, bool) {
    if key in db.markers then (db, false)
    else
      var marked := db.(markers := db.markers + {key});
      if saga in db.payments && db.payments[saga].status == Processed then
        (PaymentDb(db.payments[saga := db.payments[saga].(status := Refunded)], marked.markers,
                   db.outbox + [NewRow(ob)]),
         true)
      else (marked, true)
  }

  /** The order.created step: the new tables and the reserve call it goes on to make, if any. */
  function HandleCreated(db: PaymentDb, env: Envelope, forceFailure: bool, key: Id): (PaymentDb, Option<Request>) {
    var amount := AmountOf(env.data);
    var status := if Approved(amount, forceFailure) then Processed else Failed;
    var r := RecordPayment(db, env.saga, amount, status, PaymentEnvelope(key, env.saga, status, amount));
    (r.0,
     if r.1 && status == Processed then Some(Request(env.saga, env.key, SkuOf(env.data), QuantityOf(env.data)))
     else None)
  }

  /** The inventory.reservation_failed compensation. */
  function HandleCompensation(db: PaymentDb, env: Envelope, key: Id): PaymentDb {
    RefundPayment(db, env.saga, env.key, PaymentEnvelope(key, env.saga, Refunded, AmountOf(env.data))).0
  }

  // ----- What the steps mean -----

  /** A charge fails exactly if failure is forced or the amount is within half a cent of 66.06. */
  lemma DecisionIsExact(amount: real, forceFailure: bool)
    ensures Approved(amount, forceFailure) <==> !forceFailure && (amount <= 66.055 || amount >= 66.065)
  {
  }

  /** Every field that the data has is read, and 0.0, "" and 0 stand for those it lacks. */
  lemma FieldsOrDefaults(d: Data)
    ensures AmountOf(d) == if d.OrderCreatedData? || d.PaymentData? then d.amount else 0.0
    ensures SkuOf(d) == if d.OrderCreatedData? || d.ReservedData? || d.ReservationFailedData? then d.sku else ""
    ensures QuantityOf(d)
         == if d.OrderCreatedData? || d.ReservedData? || d.ReservationFailedData? then d.quantity else 0
  {
  }

  /**
   The first order.created of a saga charges the amount it says and announces that amount. It goes on to ask for
   the stock it names, under its own key, exactly if the charge is approved. Any later one does nothing.
   */
  lemma ChargeIsExact(db: PaymentDb, env: Envelope, forceFailure: bool, key: Id)
    ensures var (db', call) := HandleCreated(db, env, forceFailure, key);
            var amount := if env.data.OrderCreatedData? then env.data.amount else AmountOf(env.data);
            var approved := !forceFailure && (amount <= 66.055 || amount >= 66.065);
            if env.saga in db.payments then db' == db && call == None
            else
              && db'.payments == db.payments[env.saga := PaymentRow(if approved then Processed else Failed, amount)]
              && db'.markers == db.markers
              && Announces(db.outbox, db'.outbox,
                           Envelope(key, env.saga, if approved then TopicPaymentProcessed else TopicPaymentFailed,
                                    PaymentData(amount)))
              && call == (if approved then Some(Request(env.saga, env.key, SkuOf(env.data), QuantityOf(env.data)))
                          else None)
              && (approved && env.data.OrderCreatedData? ==>
                    call.value.sku == env.data.sku && call.value.quantity == env.data.quantity)
  {
    DecisionIsExact(AmountOf(env.data), forceFailure);
  }

  /** A refund is a duplicate exactly if its key was used; else it uses the key, and undoes a PROCESSED charge. */
  lemma RefundIsExact(db: PaymentDb, saga: Id, key: Id, ob: Envelope)
    ensures var (db', first) := RefundPayment(db, saga, key, ob);
            && (first <==> key !in db.markers)
            && db'.markers == db.markers + {key}
            && if first && saga in db.payments && db.payments[saga].status == Processed then
                 && db'.payments == db.payments[saga := PaymentRow(Refunded, db.payments[saga].amount)]
                 && Announces(db.outbox, db'.outbox, ob)
               else db'.payments == db.payments && db'.outbox == db.outbox
  {
  }

  /** The compensation of a refusal: its event is the refund's, under the refund's key, and says 0.0. */
  lemma CompensationIsExact(db: PaymentDb, env: Envelope, key: Id)
    requires env.data.ReservationFailedData?
    ensures HandleCompensation(db, env, key)
         == RefundPayment(db, env.saga, env.key, Envelope(key, env.saga, TopicPaymentRefunded, PaymentData(0.0))).0
  {
  }

  class Database {
    var payments: map<Id, PaymentRow>
    var markers: set<Id>
    var outbox: seq<Row>

    function Db(): PaymentDb
      reads this
    {
      PaymentDb(payments, markers, outbox)
    }

    constructor ()
      ensures Db() == PaymentDb(map[], {}, [])
    {
      payments, markers, outbox := map[], {}, [];
    }

    method Record(saga: Id, amount: real, status: PaymentStatus, ob: Envelope) returns (created: bool)
      modifies this
      ensures (Db(), created) == RecordPayment(old(Db()), saga, amount, status, ob)
    {
      created := saga !in payments;
      if created {
        payments := payments[saga := PaymentRow(status, amount)];
        outbox := outbox + [NewRow(ob)];
      }
    }

    method MarkProcessed(key: Id) returns (first: bool)
      modifies this`markers
      ensures first <==> key !in old(markers)
      ensures markers == old(markers) + {key}
    {
      first := key !in markers;
      markers := markers + {key};
    }

    method Refund(saga: Id, key: Id, ob: Envelope) returns (first: bool)
      modifies this
      ensures (Db(), first) == RefundPayment(old(Db()), saga, key, ob)
    {
      first := MarkProcessed(key);
      if !first {
        assert markers == old(markers);
        return;
      }
      if saga in payments && payments[saga].status == Processed {
        payments := payments[saga := payments[saga].(status := Refunded)];
        outbox := outbox + [NewRow(ob)];
      }
    }

    method ProcessCreated(env: Envelope, forceFailure: bool, key: Id) returns (call: Option<Request>)
      modifies this
      ensures (Db(), call) == HandleCreated(old(Db()), env, forceFailure, key)
    {
      var amount := AmountOf(env.data);
      if !Approved(amount, forceFailure) {
        var _ := Record(env.saga, amount, Failed, PaymentEnvelope(key, env.saga, Failed, amount));
        return None;
      }
      var created := Record(env.saga, amount, Processed, PaymentEnvelope(key, env.saga, Processed, amount));
      if !created {
        return None;
      }
      return Some(Request(env.saga, env.key, SkuOf(env.data), QuantityOf(env.data)));
    }

    method ProcessReservationFailed(env: Envelope, key: Id)
      modifies this
      ensures Db() == HandleCompensation(old(Db()), env, key)
    {
      var _ := Refund(env.saga, env.key, PaymentEnvelope(key, env.saga, Refunded, AmountOf(env.data)));
    }
  }
}
