/** The final status of a saga does not depend on the order in which its events arrive. */
module Confluence {
  import opened Messages
  import opened OrderDomain
  import opened Orders

  // ----- One saga: which sets of events the services emit, and what they amount to -----

  /** A payment fails alone; stock is decided after a charge; a refund follows a refusal. */
  predicate Coherent(T: set<Trigger>) {
    && (PaymentFailed in T ==> T == {PaymentFailed})
    && (InventoryReserved in T ==> PaymentProcessed in T && InventoryReservationFailed !in T)
    && (InventoryReservationFailed in T ==> PaymentProcessed in T)
    && (PaymentRefunded in T ==> InventoryReservationFailed in T)
  }

  /** Nothing is missing: every refusal has been followed by its refund. */
  predicate Complete(T: set<Trigger>) {
    InventoryReservationFailed in T ==> PaymentRefunded in T
  }

  function Verdict(T: set<Trigger>): Status {
    if PaymentFailed in T || InventoryReservationFailed in T then Cancelled
    else if InventoryReserved in T then Confirmed
    else if PaymentProcessed in T then PaymentOK
    else Pending
  }

  predicate NoRepeats(ts: seq<Trigger>) {
    forall i, j :: 0 <= i < j < |ts| ==> ts[i] != ts[j]
  }

  function Triggers(ts: seq<Trigger>): set<Trigger> {
    set t | t in ts
  }

  /** Each trigger is accepted, neither rejected nor parked, when its turn comes. */
  predicate Accepted(cur: Status, ts: seq<Trigger>)
    decreases |ts|
  {
    ts == [] || (Apply(cur, ts[0]).Ok? && Accepted(After(cur, ts[0]), ts[1..]))
  }

  /** An order in which Order may end up accepting the events `T`. */
  predicate Arrival(T: set<Trigger>, ts: seq<Trigger>) {
    NoRepeats(ts) && Triggers(ts) == T && Accepted(Pending, ts)
  }

  /** The status reached once exactly the events in `seen` have been accepted. */
  predicate Explains(T: set<Trigger>, seen: set<Trigger>, cur: Status) {
    seen <= T &&
    match cur
    case Pending => seen == {}
    case PaymentOK => seen == {PaymentProcessed}
    case Confirmed => seen == {PaymentProcessed, InventoryReserved}
    case Compensating => seen == {PaymentProcessed, InventoryReservationFailed}
    case Cancelled => PaymentFailed in seen || InventoryReservationFailed in seen
  }

  lemma ExplainsStep(T: set<Trigger>, seen: set<Trigger>, cur: Status, t: Trigger)
    requires Coherent(T) && Explains(T, seen, cur) && t in T && t !in seen && Apply(cur, t).Ok?
    ensures Explains(T, seen + {t}, After(cur, t))
  {
    if cur == Pending {
      assert seen + {t} == {t};
    } else if cur == PaymentOK {
      assert seen + {t} == {PaymentProcessed, t};
    }
  }

  lemma {:induction false} ExplainsAll(T: set<Trigger>, seen: set<Trigger>, cur: Status, ts: seq<Trigger>)
    requires Coherent(T) && Explains(T, seen, cur)
    requires NoRepeats(ts) && Accepted(cur, ts) && Triggers(ts) <= T && Triggers(ts) !! seen
    ensures Explains(T, seen + Triggers(ts), AfterAll(cur, ts))
    decreases |ts|
  {
    if ts == [] {
      assert seen + Triggers(ts) == seen;
    } else {
      assert ts[0] in Triggers(ts);
      ExplainsStep(T, seen, cur, ts[0]);
      assert forall t :: t in Triggers(ts[1..]) ==> t in Triggers(ts) && t != ts[0];
      ExplainsAll(T, seen + {ts[0]}, After(cur, ts[0]), ts[1..]);
      assert seen + {ts[0]} + Triggers(ts[1..]) == seen + Triggers(ts);
    }
  }

  /** Every arrival order of a complete set of events ends in the same status. */
  lemma SagaIsConfluent(T: set<Trigger>, ts: seq<Trigger>)
    requires Coherent(T) && Complete(T) && Arrival(T, ts)
    ensures AfterAll(Pending, ts) == Verdict(T)
  {
    ExplainsAll(T, {}, Pending, ts);
    assert {} + Triggers(ts) == T;
  }

  /**
   Without the refund the result does depend on the order: a refusal seen after the charge waits in
   COMPENSATING, one seen before the charge cancels at once. So completeness is exactly what it takes.
   */
  lemma ConfluenceIsExact(T: set<Trigger>)
    requires Coherent(T)
    ensures Complete(T)
       <==> forall ts, us :: Arrival(T, ts) && Arrival(T, us) ==> AfterAll(Pending, ts) == AfterAll(Pending, us)
  {
    if Complete(T) {
      forall ts, us | Arrival(T, ts) && Arrival(T, us) ensures AfterAll(Pending, ts) == AfterAll(Pending, us) {
        SagaIsConfluent(T, ts);
        SagaIsConfluent(T, us);
      }
    } else {
      var ts, us := [PaymentProcessed, InventoryReservationFailed], [InventoryReservationFailed, PaymentProcessed];
      OnlyChargedAndRefused(T);
      assert ts[1..] == [InventoryReservationFailed] && us[1..] == [PaymentProcessed];
      assert Accepted(PaymentOK, [InventoryReservationFailed]) && Accepted(Cancelled, [PaymentProcessed]);
      assert Triggers(ts) == T && Triggers(us) == T;
      assert Arrival(T, ts) && Arrival(T, us);
      assert AfterAll(PaymentOK, [InventoryReservationFailed]) == Compensating;
      assert AfterAll(Cancelled, [PaymentProcessed]) == Cancelled;
      assert AfterAll(Pending, ts) != AfterAll(Pending, us);
    }
  }

  lemma OnlyChargedAndRefused(T: set<Trigger>)
    requires Coherent(T) && !Complete(T)
    ensures T == {PaymentProcessed, InventoryReservationFailed}
  {
    forall t ensures t in T <==> t in {PaymentProcessed, InventoryReservationFailed} {
      match t
      case PaymentProcessed =>
      case PaymentFailed =>
      case InventoryReserved =>
      case InventoryReservationFailed =>
      case PaymentRefunded =>
    }
  }

  // ----- Any number of interleaved sagas, with parking, duplicates and redelivery -----

  /** The triggers of saga `id` among some deliveries, in order. */
  function TriggersFor(ds: seq<Delivery>, id: Id): seq<Trigger>
    decreases |ds|
  {
    if ds == [] then []
    else
      var e := ds[0].env;
      (if e.saga == id && TopicTrigger(e.topic).Some? then [TopicTrigger(e.topic).value] else [])
      + TriggersFor(ds[1..], id)
  }

  /** Sagas do not interfere: each one runs through its own accepted triggers only. */
  lemma {:induction false} SagasProject(db: OrderDb, ds: seq<Delivery>, id: Id)
    requires id in db.orders
    ensures var ts := TriggersFor(FirstAcceptances(db, ds), id);
            var db' := Deliver(db, ds);
            && id in db'.orders
            && Accepted(db.orders[id].status, ts)
            && db'.orders[id].status == AfterAll(db.orders[id].status, ts)
            && |Emitted(db'.outbox, id, TopicOrderCancelled)|
               == |Emitted(db.outbox, id, TopicOrderCancelled)|
                  + if db.orders[id].status != Cancelled && db'.orders[id].status == Cancelled then 1 else 0
    decreases |ds|
  {
    if ds != [] {
      var r := HandleEvent(db, ds[0].env, ds[0].emitKey);
      OneDelivery(db, ds[0], id);
      SagasProject(r.0, ds[1..], id);
      var rest := TriggersFor(FirstAcceptances(r.0, ds[1..]), id);
      FirstOfTriggers(db, ds, id);
      if r.1.IsFirstAcceptance() && ds[0].env.saga == id {
        AcceptedCons(db.orders[id].status, TopicTrigger(ds[0].env.topic).value, rest);
      }
      CancelledIsFinal(r.0.orders[id].status, rest);
    }
  }

  lemma FirstOfTriggers(db: OrderDb, ds: seq<Delivery>, id: Id)
    requires ds != []
    ensures var r := HandleEvent(db, ds[0].env, ds[0].emitKey);
            var rest := TriggersFor(FirstAcceptances(r.0, ds[1..]), id);
            TriggersFor(FirstAcceptances(db, ds), id)
            == if r.1.IsFirstAcceptance() && ds[0].env.saga == id then [TopicTrigger(ds[0].env.topic).value] + rest
               else rest
  {
    var r := HandleEvent(db, ds[0].env, ds[0].emitKey);
    var rest := FirstAcceptances(r.0, ds[1..]);
    if r.1.IsFirstAcceptance() {
      assert FirstAcceptances(db, ds) == [ds[0]] + rest;
      assert ([ds[0]] + rest)[1..] == rest;
    } else {
      assert FirstAcceptances(db, ds) == rest;
    }
  }

  lemma AcceptedCons(cur: Status, t: Trigger, ts: seq<Trigger>)
    ensures Accepted(cur, [t] + ts) <==> Apply(cur, t).Ok? && Accepted(After(cur, t), ts)
    ensures AfterAll(cur, [t] + ts) == AfterAll(After(cur, t), ts)
  {
    assert ([t] + ts)[1..] == ts;
  }

  lemma OneDelivery(db: OrderDb, d: Delivery, id: Id)
    requires id in db.orders
    ensures var r := HandleEvent(db, d.env, d.emitKey);
            var mine := r.1.IsFirstAcceptance() && d.env.saga == id;
            && id in r.0.orders
            && (if mine then
                  && TopicTrigger(d.env.topic).Some?
                  && Apply(db.orders[id].status, TopicTrigger(d.env.topic).value).Ok?
                  && r.0.orders[id].status == After(db.orders[id].status, TopicTrigger(d.env.topic).value)
                else r.0.orders[id].status == db.orders[id].status)
            && |Emitted(r.0.outbox, id, TopicOrderCancelled)|
               == |Emitted(db.outbox, id, TopicOrderCancelled)|
                  + if db.orders[id].status != Cancelled && r.0.orders[id].status == Cancelled then 1 else 0
  {
    if HandleEvent(db, d.env, d.emitKey).1.IsFirstAcceptance() {
      AcceptedEffect(db, d.env, d.emitKey);
      EmittedAppend(db.outbox, NewRow(CancelledEnvelope(d.emitKey, d.env.saga)), id, TopicOrderCancelled);
      assert db.outbox + [] == db.outbox;
    }
  }

  lemma {:induction false} CancelledIsFinal(cur: Status, ts: seq<Trigger>)
    ensures cur == Cancelled ==> AfterAll(cur, ts) == Cancelled
    decreases |ts|
  {
    if ts != [] {
      CancelledIsFinal(After(cur, ts[0]), ts[1..]);
    }
  }

  /** The triggers that a set of envelopes holds for saga `id`. */
  function TriggersOf(E: set<Envelope>, id: Id): set<Trigger> {
    set e | e in E && e.saga == id && TopicTrigger(e.topic).Some? :: TopicTrigger(e.topic).value
  }

  /** One envelope per key, and one event of a kind per saga. */
  predicate OneOfAKind(E: set<Envelope>) {
    forall e, f :: e in E && f in E && (e.key == f.key || (e.saga == f.saga && e.topic == f.topic)) ==> e == f
  }

  predicate DrawnFrom(ds: seq<Delivery>, E: set<Envelope>) {
    forall i :: 0 <= i < |ds| ==> ds[i].env in E
  }

  lemma {:induction false} TriggersForMembers(ds: seq<Delivery>, id: Id, t: Trigger)
    ensures t in TriggersFor(ds, id)
       <==> exists i :: 0 <= i < |ds| && ds[i].env.saga == id && TopicTrigger(ds[i].env.topic) == Some(t)
    decreases |ds|
  {
    if ds != [] {
      TriggersForMembers(ds[1..], id, t);
      if exists i :: 0 <= i < |ds| && ds[i].env.saga == id && TopicTrigger(ds[i].env.topic) == Some(t) {
        var i :| 0 <= i < |ds| && ds[i].env.saga == id && TopicTrigger(ds[i].env.topic) == Some(t);
        assert i == 0 || ds[i] == ds[1..][i - 1];
      }
      if t in TriggersFor(ds[1..], id) {
        var i :| 0 <= i < |ds[1..]| && ds[1..][i].env.saga == id && TopicTrigger(ds[1..][i].env.topic) == Some(t);
        assert ds[i + 1] == ds[1..][i];
      }
    }
  }

  lemma {:induction false} TriggersForDistinct(ds: seq<Delivery>, E: set<Envelope>, id: Id)
    requires OneOfAKind(E) && DrawnFrom(ds, E) && DistinctKeys(ds)
    ensures NoRepeats(TriggersFor(ds, id))
    decreases |ds|
  {
    if ds != [] {
      TriggersForDistinct(ds[1..], E, id);
      var e := ds[0].env;
      if e.saga == id && TopicTrigger(e.topic).Some? {
        var t := TopicTrigger(e.topic).value;
        TriggersForMembers(ds[1..], id, t);
        forall i | 0 <= i < |ds[1..]|
          ensures !(ds[1..][i].env.saga == id && TopicTrigger(ds[1..][i].env.topic) == Some(t))
        {
          assert ds[1..][i] == ds[i + 1] && ds[0].env.key != ds[i + 1].env.key;
        }
      }
    }
  }

  /** Once every event has been accepted, what a saga ran through is exactly its events. */
  lemma EventWasAccepted(fs: seq<Delivery>, E: set<Envelope>, id: Id, t: Trigger)
    requires OneOfAKind(E) && (forall i :: 0 <= i < |fs| ==> fs[i].env in E)
    requires forall e :: e in E ==> exists d :: d in fs && d.env.key == e.key
    requires t in TriggersOf(E, id)
    ensures exists i :: 0 <= i < |fs| && fs[i].env.saga == id && TopicTrigger(fs[i].env.topic) == Some(t)
  {
    var e :| e in E && e.saga == id && TopicTrigger(e.topic) == Some(t);
    var d :| d in fs && d.env.key == e.key;
    var i :| 0 <= i < |fs| && fs[i] == d;
    assert fs[i].env == e;
  }

  lemma AcceptedIsEverything(db: OrderDb, ds: seq<Delivery>, E: set<Envelope>, id: Id)
    requires OneOfAKind(E) && DrawnFrom(ds, E)
    requires forall e :: e in E ==> e.key !in db.markers && e.key in Deliver(db, ds).markers
    ensures var ts := TriggersFor(FirstAcceptances(db, ds), id); NoRepeats(ts) && Triggers(ts) == TriggersOf(E, id)
  {
    var fs := FirstAcceptances(db, ds);
    FirstAcceptancesAreDistinct(db, ds);
    RedeliveryEquivalence(db, ds);
    forall i | 0 <= i < |fs| ensures fs[i].env in E {
      assert fs[i] in fs;
    }
    TriggersForDistinct(fs, E, id);
    forall t ensures t in Triggers(TriggersFor(fs, id)) <==> t in TriggersOf(E, id) {
      TriggersForMembers(fs, id, t);
      if t in TriggersOf(E, id) {
        EventWasAccepted(fs, E, id, t);
      }
    }
  }

  /**
   For any number of sagas, any arrival order, any duplicates and any parking: once all events have
   been accepted, every saga is in the status its events call for, and a cancellation was announced
   exactly once.
   */
  lemma OrderIsConfluent(db: OrderDb, ds: seq<Delivery>, E: set<Envelope>, id: Id)
    requires id in db.orders && db.orders[id].status == Pending && Emitted(db.outbox, id, TopicOrderCancelled) == []
    requires OneOfAKind(E) && DrawnFrom(ds, E)
    requires forall e :: e in E ==> e.key !in db.markers && e.key in Deliver(db, ds).markers
    requires Coherent(TriggersOf(E, id)) && Complete(TriggersOf(E, id))
    ensures var db' := Deliver(db, ds);
            && id in db'.orders
            && db'.orders[id].status == Verdict(TriggersOf(E, id))
            && |Emitted(db'.outbox, id, TopicOrderCancelled)| == if db'.orders[id].status == Cancelled then 1 else 0
  {
    SagasProject(db, ds, id);
    AcceptedIsEverything(db, ds, E, id);
    SagaIsConfluent(TriggersOf(E, id), TriggersFor(FirstAcceptances(db, ds), id));
  }
}
