/** The Inventory service's tables and its reserve and release transactions. */
module Inventory {
  import opened Messages

  const POISON_SKU: Sku := "SKU-DEADBEEF"

  /** The consumer column of processed_messages. */
  datatype Consumer = ReserveConsumer | ReleaseConsumer | OrderCancelledConsumer

  datatype StockRow = StockRow(available: int, reserved: int)

  datatype ReservationState = Reserved | Released

  datatype Reservation = Reservation(id: Id, sku: Sku, quantity: int, state: ReservationState)

  /** stock, reservations (unique on saga_id), processed_messages and outbox. */
  datatype InventoryDb = InventoryDb(
    stock: map<Sku, StockRow>,
    reservations: map<Id, Reservation>,
    markers: set<(Id, Consumer)>,
    outbox: seq<Row>)

  datatype ReserveStatus = StockReserved | InsufficientStock

  datatype ReserveOutcome = ReserveOutcome(status: ReserveStatus, reservationId: Option<Id>, duplicate: bool)

  datatype ReleaseOutcome = ReleaseOutcome(released: bool, duplicate: bool)

  predicate HasReserved(reservations: map<Id, Reservation>, saga: Id) {
    saga in reservations && reservations[saga].state == Reserved
  }

  function Available(db: InventoryDb, sku: Sku): int {
    if sku in db.stock then db.stock[sku].available else 0
  }

  /** An UPDATE of one stock row; a sku without a row is left without one. */
  function MoveStock(stock: map<Sku, StockRow>, sku: Sku, quantity: int): map<Sku, StockRow> {
    if sku in stock then
      stock[sku := StockRow(stock[sku].available - quantity, stock[sku].reserved + quantity)]
    else stock
  }

  function ReservedEnvelope(key: Id, saga: Id, sku: Sku, quantity: int, reservationId: Id): Envelope {
    Envelope(key, saga, TopicInventoryReserved, ReservedData(sku, quantity, reservationId))
  }

  function FailedEnvelope(key: Id, saga: Id, sku: Sku, quantity: int): Envelope {
    Envelope(key, saga, TopicReservationFailed, ReservationFailedData(sku, quantity))
  }

  function ReleasedEnvelope(key: Id, saga: Id): Envelope {
    Envelope(key, saga, TopicInventoryReleased, ReleasedData)
  }

  /** A first call is refused for the poison sku and when stock does not cover it. */
  predicate Refuses(db: InventoryDb, sku: Sku, quantity: int) {
    sku == POISON_SKU || Available(db, sku) < quantity
  }

  /** `reservationId` and `eventKey` are the UUIDs the transaction would draw. */
  function Reserve(db: InventoryDb, saga: Id, key: Id, sku: Sku, quantity: int, reservationId: Id, eventKey: Id)
    : (InventoryDb, ReserveOutcome)
  {
    if (key, ReserveConsumer) in db.markers then
      (db,
       if HasReserved(db.reservations, saga) then
         ReserveOutcome(StockReserved, Some(db.reservations[saga].id), true)
       else ReserveOutcome(InsufficientStock, None, true))
    else
      var markers := db.markers + {(key, ReserveConsumer)};
      if Refuses(db, sku, quantity) then
        (InventoryDb(db.stock, db.reservations, markers,
                     db.outbox + [NewRow(FailedEnvelope(eventKey, saga, sku, quantity))]),
         ReserveOutcome(InsufficientStock, None, false))
      else
        // ON CONFLICT (saga_id) keeps the row that is already there.
        var reservations := if saga in db.reservations then db.reservations
                            else db.reservations[saga := Reservation(reservationId, sku, quantity, Reserved)];
        var rid := reservations[saga].id;
        (InventoryDb(MoveStock(db.stock, sku, quantity), reservations, markers,
                     db.outbox + [NewRow(ReservedEnvelope(eventKey, saga, sku, quantity, rid))]),
         ReserveOutcome(StockReserved, Some(rid), false))
  }

  function Release(db: InventoryDb, saga: Id, key: Id, consumer: Consumer, eventKey: Id)
    : (InventoryDb, ReleaseOutcome)
  {
    if (key, consumer) in db.markers then (db, ReleaseOutcome(false, true))
    else
      var markers := db.markers + {(key, consumer)};
      if HasReserved(db.reservations, saga) then
        var res := db.reservations[saga];
        (InventoryDb(MoveStock(db.stock, res.sku, -res.quantity),
                     db.reservations[saga := res.(state := Released)], markers,
                     db.outbox + [NewRow(ReleasedEnvelope(eventKey, saga))]),
         ReleaseOutcome(true, false))
      else (db.(markers := markers), ReleaseOutcome(false, false))
  }

  // ----- What the transactions mean -----

  /** Stock covers a request: the sku is not the poison one, and at least the quantity is available, 0 if unstocked. */
  predicate Covers(stock: map<Sku, StockRow>, sku: Sku, quantity: int) {
    sku != "SKU-DEADBEEF" && quantity <= if sku in stock then stock[sku].available else 0
  }

  /** `quantity` of `sku` has moved from available to reserved, and nothing else has. */
  predicate Moved(stock: map<Sku, StockRow>, stock': map<Sku, StockRow>, sku: Sku, quantity: int) {
    && stock'.Keys == stock.Keys
    && forall k :: k in stock ==>
         if k == sku then stock'[k] == StockRow(stock[k].available - quantity, stock[k].reserved + quantity)
         else stock'[k] == stock[k]
  }

  /**
   The first reserve under a key is granted exactly if stock covers it. It then moves the stock, leaves the saga
   with a reservation, its own if it had none, and announces it; else it announces the refusal and nothing moves.
   */
  lemma FirstReserveIsExact(db: InventoryDb, saga: Id, key: Id, sku: Sku, quantity: int, rid: Id, ek: Id)
    requires (key, ReserveConsumer) !in db.markers
    ensures var (db', answer) := Reserve(db, saga, key, sku, quantity, rid, ek);
            && db'.markers == db.markers + {(key, ReserveConsumer)} && !answer.duplicate
            && (answer.status == StockReserved <==> Covers(db.stock, sku, quantity))
            && if answer.status == StockReserved then
                 && Moved(db.stock, db'.stock, sku, quantity)
                 && db'.reservations.Keys == db.reservations.Keys + {saga}
                 && (forall id :: id in db.reservations ==> db'.reservations[id] == db.reservations[id])
                 && (saga !in db.reservations ==> db'.reservations[saga] == Reservation(rid, sku, quantity, Reserved))
                 && answer.reservationId == Some(db'.reservations[saga].id)
                 && Announces(db.outbox, db'.outbox,
                              Envelope(ek, saga, TopicInventoryReserved,
                                       ReservedData(sku, quantity, db'.reservations[saga].id)))
               else
                 && db'.stock == db.stock && db'.reservations == db.reservations && answer.reservationId == None
                 && Announces(db.outbox, db'.outbox,
                              Envelope(ek, saga, TopicReservationFailed, ReservationFailedData(sku, quantity)))
  {
  }

  /** A reserve under a used key changes nothing and reports the reservation that the saga holds, if it holds one. */
  lemma RepeatedReserveIsExact(db: InventoryDb, saga: Id, key: Id, sku: Sku, quantity: int, rid: Id, ek: Id)
    requires (key, ReserveConsumer) in db.markers
    ensures var (db', answer) := Reserve(db, saga, key, sku, quantity, rid, ek);
            && db' == db && answer.duplicate
            && (answer.status == StockReserved <==> saga in db.reservations && db.reservations[saga].state == Reserved)
            && answer.reservationId == if answer.status == StockReserved then Some(db.reservations[saga].id) else None
  {
  }

  /**
   A release takes place exactly if its key is new to its consumer and the saga holds a RESERVED reservation.
   It then gives that reservation's stock back, marks it RELEASED and announces it; else only the key is used.
   */
  lemma ReleaseIsExact(db: InventoryDb, saga: Id, key: Id, consumer: Consumer, ek: Id)
    ensures var (db', answer) := Release(db, saga, key, consumer, ek);
            && db'.markers == db.markers + {(key, consumer)}
            && (answer.duplicate <==> (key, consumer) in db.markers)
            && (answer.released <==> !answer.duplicate && saga in db.reservations
                                     && db.reservations[saga].state == Reserved)
            && if answer.released then
                 var r := db.reservations[saga];
                 && db'.reservations == db.reservations[saga := Reservation(r.id, r.sku, r.quantity, Released)]
                 && Moved(db.stock, db'.stock, r.sku, -r.quantity)
                 && Announces(db.outbox, db'.outbox, Envelope(ek, saga, TopicInventoryReleased, ReleasedData))
               else db' == db.(markers := db'.markers)
  {
  }

  class Database {
    var stock: map<Sku, StockRow>
    var reservations: map<Id, Reservation>
    var markers: set<(Id, Consumer)>
    var outbox: seq<Row>

    function Db(): InventoryDb
      reads this
    {
      InventoryDb(stock, reservations, markers, outbox)
    }

    constructor (stock: map<Sku, StockRow>)
      ensures Db() == InventoryDb(stock, map[], {}, [])
    {
      this.stock, reservations, markers, outbox := stock, map[], {}, [];
    }

    method MarkProcessed(key: Id, consumer: Consumer) returns (first: bool)
      modifies this`markers
      ensures first <==> (key, consumer) !in old(markers)
      ensures markers == if first then old(markers) + {(key, consumer)} else old(markers)
    {
      first := (key, consumer) !in markers;
      if first {
        markers := markers + {(key, consumer)};
      }
    }

    method ReserveStock(saga: Id, key: Id, sku: Sku, quantity: int, reservationId: Id, eventKey: Id)
      returns (outcome: ReserveOutcome)
      modifies this
      ensures (Db(), outcome) == Reserve(old(Db()), saga, key, sku, quantity, reservationId, eventKey)
    {
      var first := MarkProcessed(key, ReserveConsumer);
      if !first {
        if saga in reservations && reservations[saga].state == Reserved {
          return ReserveOutcome(StockReserved, Some(reservations[saga].id), true);
        }
        return ReserveOutcome(InsufficientStock, None, true);
      }
      var available := if sku in stock then stock[sku].available else 0;
      if sku == POISON_SKU || available < quantity {
        outbox := outbox + [NewRow(FailedEnvelope(eventKey, saga, sku, quantity))];
        return ReserveOutcome(InsufficientStock, None, false);
      }
      if sku in stock {
        stock := stock[sku := StockRow(stock[sku].available - quantity, stock[sku].reserved + quantity)];
      }
      if saga !in reservations {
        reservations := reservations[saga := Reservation(reservationId, sku, quantity, Reserved)];
      }
      var rid := reservations[saga].id;
      outbox := outbox + [NewRow(ReservedEnvelope(eventKey, saga, sku, quantity, rid))];
      return ReserveOutcome(StockReserved, Some(rid), false);
    }

    method ReleaseStock(saga: Id, key: Id, consumer: Consumer, eventKey: Id) returns (outcome: ReleaseOutcome)
      modifies this
      ensures (Db(), outcome) == Release(old(Db()), saga, key, consumer, eventKey)
    {
      var first := MarkProcessed(key, consumer);
      if !first {
        return ReleaseOutcome(false, true);
      }
      if saga in reservations && reservations[saga].state == Reserved {
        var res := reservations[saga];
        reservations := reservations[saga := res.(state := Released)];
        if res.sku in stock {
          stock := stock[res.sku := StockRow(stock[res.sku].available + res.quantity,
                                             stock[res.sku].reserved - res.quantity)];
        }
        outbox := outbox + [NewRow(ReleasedEnvelope(eventKey, saga))];
        return ReleaseOutcome(true, false);
      }
      return ReleaseOutcome(false, false);
    }
  }
}
