/** The stock ledger over arbitrary sequences of reserve and release calls. */
module Ledger {
  import opened Messages
  import opened Inventory
  import opened Sums

  datatype Op =
    | ReserveOp(saga: Id, key: Id, sku: Sku, quantity: int, reservationId: Id, eventKey: Id)
    | ReleaseOp(saga: Id, key: Id, consumer: Consumer, eventKey: Id)

  function Do(db: InventoryDb, op: Op): InventoryDb {
    match op
    case ReserveOp(saga, key, sku, quantity, rid, ek) => Reserve(db, saga, key, sku, quantity, rid, ek).0
    case ReleaseOp(saga, key, consumer, ek) => Release(db, saga, key, consumer, ek).0
  }

  function DoAll(db: InventoryDb, ops: seq<Op>): InventoryDb
    decreases |ops|
  {
    if ops == [] then db else DoAll(Do(db, ops[0]), ops[1..])
  }

  // ----- Conservation: no assumption on quantities or keys -----

  predicate SameTotals(stock: map<Sku, StockRow>, stock': map<Sku, StockRow>) {
    stock'.Keys == stock.Keys
    && forall k :: k in stock ==> stock'[k].available + stock'[k].reserved == stock[k].available + stock[k].reserved
  }

  lemma OpConserves(db: InventoryDb, op: Op)
    ensures SameTotals(db.stock, Do(db, op).stock)
  {
  }

  lemma {:induction false} StockIsConserved(db: InventoryDb, ops: seq<Op>)
    ensures SameTotals(db.stock, DoAll(db, ops).stock)
    decreases |ops|
  {
    if ops != [] {
      OpConserves(db, ops[0]);
      StockIsConserved(Do(db, ops[0]), ops[1..]);
    }
  }

  // ----- reserved is the sum of the RESERVED reservations -----

  function Weight(r: Reservation, sku: Sku): int {
    if r.state == Reserved && r.sku == sku then r.quantity else 0
  }

  function Weights(reservations: map<Id, Reservation>, sku: Sku): map<Id, int> {
    map id | id in reservations :: Weight(reservations[id], sku)
  }

  ghost function HeldQuantity(reservations: map<Id, Reservation>, sku: Sku): int {
    Total(Weights(reservations, sku))
  }

  ghost predicate Ties(stock: map<Sku, StockRow>, reservations: map<Id, Reservation>) {
    forall sku :: sku in stock ==> stock[sku].reserved == HeldQuantity(reservations, sku)
  }

  ghost predicate Balanced(db: InventoryDb) {
    Ties(db.stock, db.reservations)
  }

  lemma HeldUpdate(reservations: map<Id, Reservation>, id: Id, r: Reservation, sku: Sku)
    ensures HeldQuantity(reservations[id := r], sku)
         == HeldQuantity(reservations, sku) - (if id in reservations then Weight(reservations[id], sku) else 0)
             + Weight(r, sku)
  {
    assert Weights(reservations[id := r], sku) == Weights(reservations, sku)[id := Weight(r, sku)];
    TotalUpdate(Weights(reservations, sku), id, Weight(r, sku));
  }

  /** Moving stock by what a reservation row's weight changes keeps the tables tied. */
  lemma TiesUpdate(stock: map<Sku, StockRow>, reservations: map<Id, Reservation>, id: Id, r: Reservation, moved: int)
    requires Ties(stock, reservations)
    requires id in reservations ==> reservations[id].sku == r.sku
    requires moved == Weight(r, r.sku) - if id in reservations then Weight(reservations[id], r.sku) else 0
    ensures Ties(MoveStock(stock, r.sku, moved), reservations[id := r])
  {
    var stock' := MoveStock(stock, r.sku, moved);
    forall sku | sku in stock'
      ensures stock'[sku].reserved == HeldQuantity(reservations[id := r], sku)
    {
      HeldUpdate(reservations, id, r, sku);
    }
  }

  lemma ReleaseKeepsBalance(db: InventoryDb, saga: Id, key: Id, consumer: Consumer, eventKey: Id)
    requires Balanced(db)
    ensures Balanced(Release(db, saga, key, consumer, eventKey).0)
  {
    if (key, consumer) !in db.markers && HasReserved(db.reservations, saga) {
      var r := db.reservations[saga];
      TiesUpdate(db.stock, db.reservations, saga, r.(state := Released), -r.quantity);
    }
  }

  /**
   A reserve call keeps the ledger balanced exactly when it is not a successful first use of a key,
   for a non-zero quantity of a stocked sku, by a saga that already has a reservation row.
   */
  lemma ReserveBalanceIsExact(db: InventoryDb, saga: Id, key: Id, sku: Sku, quantity: int, rid: Id, eventKey: Id)
    requires Balanced(db)
    ensures Balanced(Reserve(db, saga, key, sku, quantity, rid, eventKey).0)
       <==> || (key, ReserveConsumer) in db.markers
            || Refuses(db, sku, quantity)
            || sku !in db.stock
            || quantity == 0
            || saga !in db.reservations
  {
    if (key, ReserveConsumer) in db.markers || Refuses(db, sku, quantity) {
    } else if saga !in db.reservations {
      TiesUpdate(db.stock, db.reservations, saga, Reservation(rid, sku, quantity, Reserved), quantity);
    } else if sku in db.stock {
      var stock' := MoveStock(db.stock, sku, quantity);
      assert stock'[sku].reserved == HeldQuantity(db.reservations, sku) + quantity;
    }
  }

  /** Two keys for one saga move stock twice for one reservation row. */
  lemma SecondKeyBreaksTheLedger()
    ensures exists db: InventoryDb, ops: seq<Op> ::
              && Balanced(db) && |ops| == 2
              && ops[0].ReserveOp? && ops[1].ReserveOp? && ops[0].saga == ops[1].saga && ops[0].key != ops[1].key
              && ops[0].quantity > 0 && ops[1].quantity > 0
              && !Balanced(DoAll(db, ops))
  {
    var db := InventoryDb(map["SKU-1" := StockRow(100, 0)], map[], {}, []);
    var ops := [ReserveOp(7, 1, "SKU-1", 2, 70, 71), ReserveOp(7, 2, "SKU-1", 2, 72, 73)];
    assert Weights(db.reservations, "SKU-1") == map[];
    assert Balanced(db);
    var mid := Do(db, ops[0]);
    ReserveBalanceIsExact(db, 7, 1, "SKU-1", 2, 70, 71);
    ReserveBalanceIsExact(mid, 7, 2, "SKU-1", 2, 72, 73);
    assert ops[1..] == [ops[1]];
    assert [ops[1]][1..] == [];
    assert DoAll(db, ops) == Do(mid, ops[1]);
  }

  // ----- One reserve key per saga, positive quantities -----

  /** `keyOf` is the only key under which a saga is ever reserved; quantities are positive. */
  predicate Disciplined(op: Op, keyOf: Id -> Id) {
    op.ReserveOp? ==> op.key == keyOf(op.saga) && op.quantity > 0
  }

  predicate AllDisciplined(ops: seq<Op>, keyOf: Id -> Id) {
    forall i :: 0 <= i < |ops| ==> Disciplined(ops[i], keyOf)
  }

  /** Reservations are for a positive quantity of a stocked sku. */
  predicate SoundReservations(db: InventoryDb) {
    forall id :: id in db.reservations ==> db.reservations[id].quantity > 0 && db.reservations[id].sku in db.stock
  }

  predicate NoNegativeStock(db: InventoryDb) {
    forall sku :: sku in db.stock ==> db.stock[sku].available >= 0
  }

  /** A reservation row witnesses that its saga's key has been used. */
  predicate KeysUsed(db: InventoryDb, keyOf: Id -> Id) {
    forall id :: id in db.reservations ==> (keyOf(id), ReserveConsumer) in db.markers
  }

  ghost predicate LedgerInv(db: InventoryDb, keyOf: Id -> Id) {
    Balanced(db) && SoundReservations(db) && NoNegativeStock(db) && KeysUsed(db, keyOf)
  }

  /** A reserve for a positive quantity keeps reservations sound and stock levels non-negative. */
  lemma ReserveKeepsSound(db: InventoryDb, saga: Id, key: Id, sku: Sku, quantity: int, rid: Id, ek: Id)
    requires SoundReservations(db) && NoNegativeStock(db) && quantity > 0
    ensures var db' := Reserve(db, saga, key, sku, quantity, rid, ek).0; SoundReservations(db') && NoNegativeStock(db')
  {
  }

  lemma LedgerStep(db: InventoryDb, op: Op, keyOf: Id -> Id)
    requires LedgerInv(db, keyOf) && Disciplined(op, keyOf)
    ensures LedgerInv(Do(db, op), keyOf)
  {
    match op
    case ReserveOp(saga, key, sku, quantity, rid, ek) =>
      ReserveBalanceIsExact(db, saga, key, sku, quantity, rid, ek);
      ReserveKeepsSound(db, saga, key, sku, quantity, rid, ek);
    case ReleaseOp(saga, key, consumer, ek) =>
      ReleaseKeepsBalance(db, saga, key, consumer, ek);
  }

  lemma {:induction false} LedgerHolds(db: InventoryDb, ops: seq<Op>, keyOf: Id -> Id)
    requires LedgerInv(db, keyOf) && AllDisciplined(ops, keyOf)
    ensures LedgerInv(DoAll(db, ops), keyOf)
    decreases |ops|
  {
    if ops != [] {
      assert Disciplined(ops[0], keyOf);
      LedgerStep(db, ops[0], keyOf);
      LedgerHolds(Do(db, ops[0]), ops[1..], keyOf);
    }
  }

  /** What is reserved for a sku never exceeds what there was of it, nor falls below zero. */
  lemma LedgerBounds(db: InventoryDb, ops: seq<Op>, keyOf: Id -> Id, sku: Sku)
    requires LedgerInv(db, keyOf) && AllDisciplined(ops, keyOf) && sku in db.stock
    ensures var row := db.stock[sku];
            var db' := DoAll(db, ops);
            && sku in db'.stock
            && 0 <= db'.stock[sku].available <= row.available + row.reserved
            && 0 <= HeldQuantity(db'.reservations, sku) == db'.stock[sku].reserved <= row.available + row.reserved
  {
    LedgerHolds(db, ops, keyOf);
    StockIsConserved(db, ops);
    HeldIsNonNegative(DoAll(db, ops), sku);
  }

  lemma HeldIsNonNegative(db: InventoryDb, sku: Sku)
    requires SoundReservations(db)
    ensures 0 <= HeldQuantity(db.reservations, sku)
  {
    TotalMonotone(map[], Weights(db.reservations, sku));
  }

  // ----- A replayed reserve repeats the original answer -----

  function Answer(db: InventoryDb, saga: Id): (ReserveStatus, Option<Id>) {
    if HasReserved(db.reservations, saga) then (StockReserved, Some(db.reservations[saga].id))
    else (InsufficientStock, None)
  }

  predicate Releases(op: Op, saga: Id) {
    op.ReleaseOp? && op.saga == saga
  }

  lemma {:induction false} AnswerIsStable(db: InventoryDb, ops: seq<Op>, keyOf: Id -> Id, saga: Id)
    requires (keyOf(saga), ReserveConsumer) in db.markers
    requires AllDisciplined(ops, keyOf)
    requires forall i :: 0 <= i < |ops| ==> !Releases(ops[i], saga)
    ensures (keyOf(saga), ReserveConsumer) in DoAll(db, ops).markers
    ensures Answer(DoAll(db, ops), saga) == Answer(db, saga)
    decreases |ops|
  {
    if ops != [] {
      assert Disciplined(ops[0], keyOf) && !Releases(ops[0], saga);
      AnswerIsStable(Do(db, ops[0]), ops[1..], keyOf, saga);
    }
  }

  /**
   However many other calls come in between, repeating a saga's reserve returns the original
   status and reservation id and changes nothing, as long as that saga is not released.
   */
  lemma ReplayRepeatsTheAnswer(
    db: InventoryDb, saga: Id, sku: Sku, quantity: int, rid: Id, ek: Id,
    ops: seq<Op>, keyOf: Id -> Id, rid': Id, ek': Id)
    requires quantity > 0 && saga !in db.reservations
    requires (keyOf(saga), ReserveConsumer) !in db.markers
    requires AllDisciplined(ops, keyOf)
    requires forall i :: 0 <= i < |ops| ==> !Releases(ops[i], saga)
    ensures var first := Reserve(db, saga, keyOf(saga), sku, quantity, rid, ek);
            var later := DoAll(first.0, ops);
            var again := Reserve(later, saga, keyOf(saga), sku, quantity, rid', ek');
            && again.0 == later
            && again.1 == first.1.(duplicate := true)
  {
    var first := Reserve(db, saga, keyOf(saga), sku, quantity, rid, ek);
    AnswerIsStable(first.0, ops, keyOf, saga);
  }

  // ----- One reserved-or-failed row per reserve key -----

  /** Event key and saga of the reserved-or-failed rows, in order. */
  function Outcomes(rows: seq<Row>): seq<(Id, Id)> {
    if rows == [] then []
    else
      var e := rows[|rows| - 1].env;
      Outcomes(rows[..|rows| - 1])
      + if e.topic in {TopicInventoryReserved, TopicReservationFailed} then [(e.key, e.saga)] else []
  }

  predicate IsFirstUse(db: InventoryDb, op: Op) {
    op.ReserveOp? && (op.key, ReserveConsumer) !in db.markers
  }

  /** The reserve calls whose key had not been used before. */
  function FirstUses(db: InventoryDb, ops: seq<Op>): seq<Op>
    decreases |ops|
  {
    if ops == [] then [] else (if IsFirstUse(db, ops[0]) then [ops[0]] else []) + FirstUses(Do(db, ops[0]), ops[1..])
  }

  /** What such calls ought to be announced with: one row each, under its own event key and saga. */
  function Expected(uses: seq<Op>): seq<(Id, Id)> {
    seq(|uses|, i requires 0 <= i < |uses| => (uses[i].eventKey, uses[i].saga))
  }

  lemma OutcomesAppend(rows: seq<Row>, r: Row)
    ensures Outcomes(rows + [r])
         == Outcomes(rows)
            + if r.env.topic in {TopicInventoryReserved, TopicReservationFailed} then [(r.env.key, r.env.saga)] else []
  {
    assert (rows + [r])[..|rows|] == rows;
  }

  lemma OutcomesStep(db: InventoryDb, op: Op)
    ensures Outcomes(Do(db, op).outbox)
         == Outcomes(db.outbox) + if IsFirstUse(db, op) then [(op.eventKey, op.saga)] else []
  {
    match op
    case ReserveOp(saga, key, sku, quantity, rid, ek) =>
      var kept := if saga in db.reservations then db.reservations[saga].id else rid;
      OutcomesAppend(db.outbox, NewRow(FailedEnvelope(ek, saga, sku, quantity)));
      OutcomesAppend(db.outbox, NewRow(ReservedEnvelope(ek, saga, sku, quantity, kept)));
    case ReleaseOp(saga, key, consumer, ek) =>
      OutcomesAppend(db.outbox, NewRow(ReleasedEnvelope(ek, saga)));
  }

  /** The outcome rows that any sequence of calls appends are, in order, those of the first uses of its keys. */
  lemma {:induction false} OneOutcomeRowPerKey(db: InventoryDb, ops: seq<Op>)
    ensures Outcomes(DoAll(db, ops).outbox) == Outcomes(db.outbox) + Expected(FirstUses(db, ops))
    decreases |ops|
  {
    if ops != [] {
      var rest := FirstUses(Do(db, ops[0]), ops[1..]);
      OutcomesStep(db, ops[0]);
      OneOutcomeRowPerKey(Do(db, ops[0]), ops[1..]);
      if IsFirstUse(db, ops[0]) {
        assert FirstUses(db, ops) == [ops[0]] + rest;
        assert Expected([ops[0]] + rest) == [(ops[0].eventKey, ops[0].saga)] + Expected(rest);
      } else {
        assert FirstUses(db, ops) == rest;
      }
    }
  }

  // ----- One released row per reservation that is released -----

  /** Event key and saga of the released rows, in order. */
  function ReleasedRows(rows: seq<Row>): seq<(Id, Id)> {
    if rows == [] then []
    else
      var e := rows[|rows| - 1].env;
      ReleasedRows(rows[..|rows| - 1]) + if e.topic == TopicInventoryReleased then [(e.key, e.saga)] else []
  }

  predicate InState(reservations: map<Id, Reservation>, saga: Id, state: ReservationState) {
    saga in reservations && reservations[saga].state == state
  }

  /** The call takes its saga's reservation from RESERVED to RELEASED. */
  predicate Frees(db: InventoryDb, op: Op) {
    InState(db.reservations, op.saga, Reserved) && InState(Do(db, op).reservations, op.saga, Released)
  }

  /** The calls of a sequence that do so. */
  function Freeings(db: InventoryDb, ops: seq<Op>): seq<Op>
    decreases |ops|
  {
    if ops == [] then [] else (if Frees(db, ops[0]) then [ops[0]] else []) + Freeings(Do(db, ops[0]), ops[1..])
  }

  /** It is the first use of a release key for a saga with a RESERVED reservation. */
  lemma FreesIsExact(db: InventoryDb, op: Op)
    ensures Frees(db, op)
       <==> op.ReleaseOp? && (op.key, op.consumer) !in db.markers && InState(db.reservations, op.saga, Reserved)
  {
  }

  lemma ReleasedAppend(rows: seq<Row>, r: Row)
    ensures ReleasedRows(rows + [r])
         == ReleasedRows(rows) + if r.env.topic == TopicInventoryReleased then [(r.env.key, r.env.saga)] else []
  {
    assert (rows + [r])[..|rows|] == rows;
  }

  lemma ReleasedStep(db: InventoryDb, op: Op)
    ensures ReleasedRows(Do(db, op).outbox)
         == ReleasedRows(db.outbox) + if Frees(db, op) then [(op.eventKey, op.saga)] else []
  {
    match op
    case ReserveOp(saga, key, sku, quantity, rid, ek) =>
      var kept := if saga in db.reservations then db.reservations[saga].id else rid;
      ReleasedAppend(db.outbox, NewRow(FailedEnvelope(ek, saga, sku, quantity)));
      ReleasedAppend(db.outbox, NewRow(ReservedEnvelope(ek, saga, sku, quantity, kept)));
    case ReleaseOp(saga, key, consumer, ek) =>
      ReleasedAppend(db.outbox, NewRow(ReleasedEnvelope(ek, saga)));
  }

  /** The released rows that any sequence of calls appends are, in order, those of the reservations it releases. */
  lemma {:induction false} OneReleasedRowPerRelease(db: InventoryDb, ops: seq<Op>)
    ensures ReleasedRows(DoAll(db, ops).outbox) == ReleasedRows(db.outbox) + Expected(Freeings(db, ops))
    decreases |ops|
  {
    if ops != [] {
      var rest := Freeings(Do(db, ops[0]), ops[1..]);
      ReleasedStep(db, ops[0]);
      OneReleasedRowPerRelease(Do(db, ops[0]), ops[1..]);
      if Frees(db, ops[0]) {
        assert Freeings(db, ops) == [ops[0]] + rest;
        assert Expected([ops[0]] + rest) == [(ops[0].eventKey, ops[0].saga)] + Expected(rest);
      } else {
        assert Freeings(db, ops) == rest;
      }
    }
  }

  lemma ReleasedStays(db: InventoryDb, op: Op, saga: Id)
    requires InState(db.reservations, saga, Released)
    ensures InState(Do(db, op).reservations, saga, Released)
  {
  }

  lemma {:induction false} NotFreedAgain(db: InventoryDb, ops: seq<Op>, saga: Id)
    requires InState(db.reservations, saga, Released)
    ensures forall op :: op in Freeings(db, ops) ==> op.saga != saga
    decreases |ops|
  {
    if ops != [] {
      ReleasedStays(db, ops[0], saga);
      NotFreedAgain(Do(db, ops[0]), ops[1..], saga);
    }
  }

  predicate DistinctSagas(ops: seq<Op>) {
    forall i, j :: 0 <= i < j < |ops| ==> ops[i].saga != ops[j].saga
  }

  lemma DistinctCons(op: Op, rest: seq<Op>)
    requires DistinctSagas(rest) && forall o :: o in rest ==> o.saga != op.saga
    ensures DistinctSagas([op] + rest)
  {
    var ops := [op] + rest;
    forall i, j | 0 <= i < j < |ops| ensures ops[i].saga != ops[j].saga {
      assert ops[j] == rest[j - 1] && rest[j - 1] in rest;
      assert i > 0 ==> ops[i] == rest[i - 1];
    }
  }

  /** RELEASED is for good, so no saga is released twice, under whatever keys and by whatever consumers. */
  lemma {:induction false} ReleasedOncePerSaga(db: InventoryDb, ops: seq<Op>)
    ensures DistinctSagas(Freeings(db, ops))
    decreases |ops|
  {
    if ops != [] {
      ReleasedOncePerSaga(Do(db, ops[0]), ops[1..]);
      if Frees(db, ops[0]) {
        NotFreedAgain(Do(db, ops[0]), ops[1..], ops[0].saga);
        DistinctCons(ops[0], Freeings(Do(db, ops[0]), ops[1..]));
      }
    }
  }

  /** Reserve calls under keys that are not marked, no two alike. */
  predicate Fresh(uses: seq<Op>, markers: set<(Id, Consumer)>) {
    && (forall i :: 0 <= i < |uses| ==> uses[i].ReserveOp? && (uses[i].key, ReserveConsumer) !in markers)
    && forall i, j :: 0 <= i < j < |uses| ==> uses[i].key != uses[j].key
  }

  lemma FreshCons(op: Op, rest: seq<Op>, markers: set<(Id, Consumer)>, markers': set<(Id, Consumer)>)
    requires Fresh(rest, markers') && markers <= markers'
    requires op.ReserveOp? && (op.key, ReserveConsumer) !in markers && (op.key, ReserveConsumer) in markers'
    ensures Fresh([op] + rest, markers)
  {
    var uses := [op] + rest;
    forall i | 0 <= i < |uses| ensures uses[i].ReserveOp? && (uses[i].key, ReserveConsumer) !in markers {
      assert i > 0 ==> uses[i] == rest[i - 1];
    }
    forall i, j | 0 <= i < j < |uses| ensures uses[i].key != uses[j].key {
      assert uses[j] == rest[j - 1];
      assert i > 0 ==> uses[i] == rest[i - 1];
    }
  }

  lemma MarkersGrow(db: InventoryDb, op: Op)
    ensures db.markers <= Do(db, op).markers
    ensures op.ReserveOp? ==> (op.key, ReserveConsumer) in Do(db, op).markers
  {
  }

  /** No key is used for the first time twice, and afterwards every reserve of the sequence has its key used. */
  lemma {:induction false} FirstUsesAreDistinct(db: InventoryDb, ops: seq<Op>)
    ensures Fresh(FirstUses(db, ops), db.markers)
    ensures db.markers <= DoAll(db, ops).markers
    ensures forall i :: 0 <= i < |ops| && ops[i].ReserveOp? ==> (ops[i].key, ReserveConsumer) in DoAll(db, ops).markers
    decreases |ops|
  {
    if ops != [] {
      var db1 := Do(db, ops[0]);
      MarkersGrow(db, ops[0]);
      FirstUsesAreDistinct(db1, ops[1..]);
      if IsFirstUse(db, ops[0]) {
        FreshCons(ops[0], FirstUses(db1, ops[1..]), db.markers, db1.markers);
      }
      forall i | 0 <= i < |ops| && ops[i].ReserveOp? ensures (ops[i].key, ReserveConsumer) in DoAll(db, ops).markers {
        assert i > 0 ==> ops[i] == ops[1..][i - 1];
      }
    }
  }
}
