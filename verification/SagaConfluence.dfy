/** The events the services really emit satisfy what confluence at Order asks for. */
module SagaConfluence {
  import opened Messages
  import opened OrderDomain
  import opened SagaSystem
  import opened SagaView
  import opened SagaInvariant
  import opened OrderSteps
  import opened SagaSafety
  import opened SagaOutcome
  import opened Confluence

  /** Everything emitted for Order so far. */
  function EventsForOrder(s: Sys): set<Envelope> {
    set r | r in s.payment.outbox + s.inventory.outbox && Consumes(OrderService, r.env.topic) :: r.env
  }

  function TopicOf(t: Trigger): Topic {
    match t
    case PaymentProcessed => TopicPaymentProcessed
    case PaymentFailed => TopicPaymentFailed
    case InventoryReserved => TopicInventoryReserved
    case InventoryReservationFailed => TopicReservationFailed
    case PaymentRefunded => TopicPaymentRefunded
  }

  lemma TopicOfTrigger(t: Trigger, u: Topic)
    ensures TopicTrigger(u) == Some(t) <==> u == TopicOf(t)
    ensures Consumes(OrderService, TopicOf(t))
  {
  }

  /** An event is in the set exactly when its row is in its producer's outbox. */
  lemma EventFromRow(s: Sys, e: Envelope)
    requires RowsOk(s)
    ensures e in EventsForOrder(s)
       <==> Consumes(OrderService, e.topic)
            && exists i :: 0 <= i < |Outbox(s, Producer(e.topic))| && Outbox(s, Producer(e.topic))[i].env == e
  {
    assert TableOk(s.issued, Outbox(s, PaymentService), PaymentService);
    assert TableOk(s.issued, Outbox(s, InventoryService), InventoryService);
    var rows := s.payment.outbox + s.inventory.outbox;
    if e in EventsForOrder(s) {
      var r :| r in rows && Consumes(OrderService, r.env.topic) && r.env == e;
      assert r in s.payment.outbox || r in s.inventory.outbox;
      if r in s.payment.outbox {
        var i :| 0 <= i < |s.payment.outbox| && s.payment.outbox[i] == r;
        assert Outbox(s, Producer(e.topic))[i].env == e;
      } else {
        var i :| 0 <= i < |s.inventory.outbox| && s.inventory.outbox[i] == r;
        assert Outbox(s, Producer(e.topic))[i].env == e;
      }
    }
    if Consumes(OrderService, e.topic)
       && exists i :: 0 <= i < |Outbox(s, Producer(e.topic))| && Outbox(s, Producer(e.topic))[i].env == e {
      var i :| 0 <= i < |Outbox(s, Producer(e.topic))| && Outbox(s, Producer(e.topic))[i].env == e;
      assert Outbox(s, Producer(e.topic))[i] in rows;
    }
  }

  lemma TriggerHasRow(s: Sys, id: Id, t: Trigger)
    requires Inv(s) && t in TriggersOf(EventsForOrder(s), id)
    ensures Emitted(Outbox(s, Producer(TopicOf(t))), id, TopicOf(t)) != []
  {
    var e :| e in EventsForOrder(s) && e.saga == id && TopicTrigger(e.topic) == Some(t);
    TopicOfTrigger(t, e.topic);
    EventFromRow(s, e);
    var rows := Outbox(s, Producer(e.topic));
    var i :| 0 <= i < |rows| && rows[i].env == e;
    EmittedHasRow(rows, i);
  }

  lemma RowHasTrigger(s: Sys, id: Id, t: Trigger)
    requires Inv(s) && Emitted(Outbox(s, Producer(TopicOf(t))), id, TopicOf(t)) != []
    ensures t in TriggersOf(EventsForOrder(s), id)
  {
    var u := TopicOf(t);
    var rows := Outbox(s, Producer(u));
    TopicOfTrigger(t, u);
    var i := EmittedFromRow(rows, id, u, Emitted(rows, id, u)[0]);
    EventFromRow(s, rows[i].env);
    assert rows[i].env in EventsForOrder(s);
  }

  lemma EmittedEvents(s: Sys, id: Id, t: Trigger)
    requires Inv(s)
    ensures t in TriggersOf(EventsForOrder(s), id) <==> !EvAt(ViewOf(s, id), TopicOf(t)).Absent?
  {
    var u := TopicOf(t);
    TopicOfTrigger(t, u);
    EvAtOfView(s, id, u);
    if t in TriggersOf(EventsForOrder(s), id) {
      TriggerHasRow(s, id, t);
    }
    if Emitted(Outbox(s, Producer(u)), id, u) != [] {
      RowHasTrigger(s, id, t);
    }
  }

  lemma EventsAreOneOfAKind(s: Sys, e: Envelope, f: Envelope)
    requires Inv(s) && e in EventsForOrder(s) && f in EventsForOrder(s)
    requires e.key == f.key || (e.saga == f.saga && e.topic == f.topic)
    ensures e == f
  {
    EventIsRegistered(s, e);
    EventIsRegistered(s, f);
    if e.saga == f.saga && e.topic == f.topic {
      OrderKnowsTheRecord(s, e.topic, e);
      OrderKnowsTheRecord(s, f.topic, f);
    }
  }

  lemma EventIsRegistered(s: Sys, e: Envelope)
    requires Inv(s) && e in EventsForOrder(s)
    ensures Consumes(OrderService, e.topic) && RecordOk(s, e.topic, e)
  {
    EventFromRow(s, e);
    var rows := Outbox(s, Producer(e.topic));
    var i :| 0 <= i < |rows| && rows[i].env == e;
    assert TableOk(s.issued, rows, Producer(e.topic));
    EmittedHasRow(rows, i);
  }

  /** In every reachable state the emitted events are one of a kind and coherent for every saga. */
  lemma EmittedEventsAreCoherent(s0: Sys, steps: seq<Step>, id: Id)
    requires Init(s0) && CanRun(s0, steps)
    ensures var E := EventsForOrder(Run(s0, steps)); OneOfAKind(E) && Coherent(TriggersOf(E, id))
  {
    var s := Run(s0, steps);
    ReachableInv(s0, steps);
    var E := EventsForOrder(s);
    forall e, f | e in E && f in E && (e.key == f.key || (e.saga == f.saga && e.topic == f.topic)) ensures e == f {
      EventsAreOneOfAKind(s, e, f);
    }
    forall t ensures t in TriggersOf(E, id) <==> !EvAt(ViewOf(s, id), TopicOf(t)).Absent? {
      EmittedEvents(s, id, t);
    }
    CoherentFromView(ViewOf(s, id), id, TriggersOf(E, id));
  }

  lemma CoherentFromView(v: View, id: Id, T: set<Trigger>)
    requires ViewOk(v, id)
    requires forall t :: t in T <==> !EvAt(v, TopicOf(t)).Absent?
    ensures Coherent(T)
  {
    forall t ensures t in T <==> !EvAt(v, TopicOf(t)).Absent? {}
    assert EvAt(v, TopicOf(PaymentFailed)) == v.failed && EvAt(v, TopicOf(PaymentProcessed)) == v.processed;
    assert EvAt(v, TopicOf(PaymentRefunded)) == v.refunded && EvAt(v, TopicOf(InventoryReserved)) == v.reserved;
    assert EvAt(v, TopicOf(InventoryReservationFailed)) == v.refused;
    if PaymentFailed in T {
      assert T == {PaymentFailed};
    }
  }

  /**
   In a quiescent state every order has the status its saga's events call for, so the schedule can
   influence an order only through which events were emitted, never through how they travelled.
   */
  lemma QuiescentStatusIsTheVerdict(s0: Sys, steps: seq<Step>, id: Id)
    requires Init(s0) && CanRun(s0, steps) && Quiescent(Run(s0, steps))
    requires id in Run(s0, steps).order.orders
    ensures var s := Run(s0, steps);
            var T := TriggersOf(EventsForOrder(s), id);
            Complete(T) && s.order.orders[id].status == Verdict(T)
  {
    var s := Run(s0, steps);
    ReachableInv(s0, steps);
    QuiescentIsSettled(s, id);
    forall t ensures t in TriggersOf(EventsForOrder(s), id) <==> !EvAt(ViewOf(s, id), TopicOf(t)).Absent? {
      EmittedEvents(s, id, t);
    }
    assert ViewOk(ViewOf(s, id), id);
    VerdictFromView(ViewOf(s, id), id, TriggersOf(EventsForOrder(s), id));
  }

  lemma VerdictFromView(v: View, id: Id, T: set<Trigger>)
    requires ViewOk(v, id) && v.order.Some? && Settled(v)
    requires forall t :: t in T <==> !EvAt(v, TopicOf(t)).Absent?
    ensures Complete(T) && v.order.value.status == Verdict(T)
  {
    SettledOutcome(v, id);
    assert EvAt(v, TopicOf(PaymentFailed)) == v.failed && EvAt(v, TopicOf(PaymentProcessed)) == v.processed;
    assert EvAt(v, TopicOf(PaymentRefunded)) == v.refunded && EvAt(v, TopicOf(InventoryReserved)) == v.reserved;
    assert EvAt(v, TopicOf(InventoryReservationFailed)) == v.refused;
  }
}
