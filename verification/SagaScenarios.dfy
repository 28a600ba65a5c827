/** Concrete runs: the outcomes are reachable, and three tempting claims are false. */
module SagaScenarios {
  import opened Messages
  import opened OrderDomain
  import opened Orders
  import opened Payments
  import opened Inventory
  import opened OrderConsumer
  import opened OrderRetries
  import opened SagaSystem
  import opened SagaProgress
  import opened SagaOutcome
  import opened LoopRefinement

  const STOCK := InventoryDb(map["SKU-1" := StockRow(100, 0)], map[], {}, [])

  const START := Sys(OrderDb(map[], {}, []), PaymentDb(map[], {}, []), STOCK, map[], map[], map[], map[], {}, map[])

  function Created(sku: Sku): Envelope {
    Envelope(100, 1, TopicOrderCreated, OrderCreatedData(sku, 2, 10.0))
  }

  const PAID := PaymentEnvelope(101, 1, Processed, 10.0)

  /** Order 1 for two of `sku` at 10.0, charged, with the reserve call in flight. */
  function Charged(sku: Sku): Sys {
    Sys(OrderDb(map[1 := OrderRow(sku, 2, 10.0, Pending)], {}, [NewRow(Created(sku))]),
        PaymentDb(map[1 := PaymentRow(Processed, 10.0)], {}, [NewRow(PAID)]),
        STOCK,
        map[TopicOrderCreated := [Created(sku)]],
        map[(PaymentService, TopicOrderCreated) := 1],
        map[],
        map[1 := Request(1, 100, sku, 2)],
        {},
        map[100 := Created(sku), 101 := PAID])
  }

  lemma Then(s: Sys, steps: seq<Step>, st: Step)
    requires CanRun(s, steps) && Enabled(Run(s, steps), st)
    ensures CanRun(s, steps + [st]) && Run(s, steps + [st]) == Next(Run(s, steps), st)
  {
    RunOne(Run(s, steps), st);
    RunConcat(s, steps, [st]);
  }

  lemma StartIsInitial()
    ensures Init(START)
  {
  }

  /** The first record of a topic. */
  lemma FirstSent(s: Sys, steps: seq<Step>, svc: Service, env: Envelope)
    requires CanRun(s, steps) && Outbox(Run(s, steps), svc) == [NewRow(env)] && Log(Run(s, steps), env.topic) == []
    ensures var s1 := Run(s, steps);
            && CanRun(s, steps + [SendStep(svc, 0)])
            && Run(s, steps + [SendStep(svc, 0)]) == s1.(logs := s1.logs[env.topic := [env]])
  {
    Then(s, steps, SendStep(svc, 0));
    assert Log(Run(s, steps), env.topic) + [env] == [env];
  }

  lemma ChargedRun(sku: Sku) returns (steps: seq<Step>)
    requires sku != ""
    ensures CanRun(START, steps) && Run(START, steps) == Charged(sku)
  {
    var create, send, charge := CreateStep(1, sku, 2, 10.0, 100), SendStep(OrderService, 0), CreatedStep(false, 101);
    assert CanRun(START, []) && Run(START, []) == START;
    Then(START, [], create);
    var s1 := Run(START, [] + [create]);
    assert s1.order.outbox == [NewRow(Created(sku))];
    FirstSent(START, [] + [create], OrderService, Created(sku));
    var s2 := Run(START, [] + [create] + [send]);
    assert Head(s2, PaymentService, TopicOrderCreated) == Created(sku);
    Then(START, [] + [create] + [send], charge);
    steps := [] + [create] + [send] + [charge];
    assert Approved(10.0, false);
  }

  /** An order that is CONFIRMED. */
  lemma ConfirmedIsReachable() returns (steps: seq<Step>)
    ensures Init(START) && CanRun(START, steps)
    ensures 1 in Run(START, steps).order.orders && Run(START, steps).order.orders[1].status == Confirmed
  {
    StartIsInitial();
    var s;
    steps, s := ReservedRun();
    var more := BothAccepted(s, ReservedEnvelope(102, 1, "SKU-1", 2, 7));
    RunConcat(START, steps, more);
    steps := steps + more;
  }

  /** Stock is reserved, and both the payment and the reservation have been published. */
  lemma ReservedRun() returns (steps: seq<Step>, s: Sys)
    ensures CanRun(START, steps) && s == Run(START, steps) && s.order == Charged("SKU-1").order
    ensures s.issued.Keys == {100, 101, 102} && s.position == map[(PaymentService, TopicOrderCreated) := 1]
    ensures Log(s, TopicPaymentProcessed) == [PAID]
            && Log(s, TopicInventoryReserved) == [ReservedEnvelope(102, 1, "SKU-1", 2, 7)]
  {
    steps := ChargedRun("SKU-1");
    var execute := ExecuteStep(1, true, 7, 102);
    Then(START, steps, execute);
    var held := ReservedEnvelope(102, 1, "SKU-1", 2, 7);
    SkuOneIsReserved();
    FirstSent(START, steps + [execute], PaymentService, PAID);
    FirstSent(START, steps + [execute] + [SendStep(PaymentService, 0)], InventoryService, held);
    steps := steps + [execute] + [SendStep(PaymentService, 0)] + [SendStep(InventoryService, 0)];
    s := Run(START, steps);
  }

  lemma SkuOneIsReserved()
    ensures Enabled(Charged("SKU-1"), ExecuteStep(1, true, 7, 102))
    ensures var s := Charged("SKU-1");
            var s' := Next(s, ExecuteStep(1, true, 7, 102));
            var env := ReservedEnvelope(102, 1, "SKU-1", 2, 7);
            && s' == s.(inventory := s'.inventory, calls := map[], issued := s.issued[102 := env])
            && s'.inventory.outbox == [NewRow(env)]
  {
    var s := Charged("SKU-1");
    assert s.calls - {1} == map[];
  }

  const STUCK_FETCH := [Fetched(TopicInventoryReserved, 1), Fetched(TopicPaymentProcessed, 1)]

  /**
   A parked event is not always redelivered until its prerequisite arrives. Both records of a charged and
   reserved order are fetched in one poll, the reservation first: it is parked, and however often that order
   of dispatch comes back, whatever is fetched besides, the order stays PENDING.
   */
  lemma ParkedBeforeItsPrerequisite(keys: nat -> Id, commits: bool, turns: seq<Turn>)
    returns (steps: seq<Step>, g: Group)
    ensures Init(START) && CanRun(START, steps)
    ensures var s := Run(START, steps);
            && g == Group(s.order, map[], map[], {}) && (forall t :: Position(s, OrderService, t) == 0)
            && ValidFetch(s.logs, g.position, STUCK_FETCH) && Exist(s.logs, Refs(g.position, STUCK_FETCH))
            && var ds := Deliveries(s.logs, Refs(g.position, STUCK_FETCH), keys);
               && |ds| == 2 && ds[1].env == PAID && AcceptedCount(g.db, ds) == 0
    ensures var s := Run(START, steps);
            var g1 := Poll(g, s.logs, STUCK_FETCH, keys, Fine, commits);
            (forall i :: 0 <= i < |turns| ==> PollsAgain(g, turns[i], UpToTheError(g, s.logs, STUCK_FETCH, keys))) ==>
              && CanTakeAll(g1, turns)
              && var g2 := TakeAll(g1, turns);
                 1 in g2.db.orders && g2.db.orders[1].status == Pending && g2.committed == map[]
  {
    StartIsInitial();
    var s;
    steps, s := ReservedRun();
    g := Group(s.order, map[], map[], {});
    StuckBatch(s, g, keys);
    forall t ensures Position(s, OrderService, t) == 0 {
      assert (OrderService, t) != (PaymentService, TopicOrderCreated);
    }
    if forall i :: 0 <= i < |turns| ==> PollsAgain(g, turns[i], UpToTheError(g, s.logs, STUCK_FETCH, keys)) {
      RetryingInTheSameOrderIsStuck(g, s.logs, STUCK_FETCH, keys, commits, turns);
      var ds := Deliveries(s.logs, Refs(g.position, STUCK_FETCH), keys);
      assert ds[..0] == [] && Deliver(g.db, []) == g.db;
    }
  }

  lemma StuckBatch(s: Sys, g: Group, keys: nat -> Id)
    requires s.order == Charged("SKU-1").order && g == Group(s.order, map[], map[], {})
    requires Log(s, TopicPaymentProcessed) == [PAID]
             && Log(s, TopicInventoryReserved) == [ReservedEnvelope(102, 1, "SKU-1", 2, 7)]
    ensures ValidFetch(s.logs, g.position, STUCK_FETCH) && Exist(s.logs, Refs(g.position, STUCK_FETCH))
    ensures var ds := Deliveries(s.logs, Refs(g.position, STUCK_FETCH), keys);
            |ds| == 2 && ds[1].env == PAID && AcceptedCount(g.db, ds) == 0
  {
    var held, paid := Ref(TopicInventoryReserved, 0), Ref(TopicPaymentProcessed, 0);
    assert STUCK_FETCH[1..] == [Fetched(TopicPaymentProcessed, 1)] && STUCK_FETCH[1..][1..] == [];
    assert Refs(g.position, STUCK_FETCH[1..]) == [paid];
    assert Refs(g.position, STUCK_FETCH) == [held, paid];
    var ds := Deliveries(s.logs, Refs(g.position, STUCK_FETCH), keys);
    assert HandleEvent(g.db, ds[0].env, ds[0].emitKey).1 == Premature;
  }

  lemma ReservationAccepted(s: Sys, held: Envelope)
    requires s.order == OrderDb(map[1 := OrderRow("SKU-1", 2, 10.0, PaymentOK)], {101}, s.order.outbox)
             && 104 !in s.issued
    requires Log(s, TopicInventoryReserved) == [held] && Position(s, OrderService, TopicInventoryReserved) == 0
    requires held.key == 102 && held.saga == 1 && held.topic == TopicInventoryReserved
    ensures var st := OrderStep(TopicInventoryReserved, 104);
            && Enabled(s, st) && 1 in Next(s, st).order.orders && Next(s, st).order.orders[1].status == Confirmed
  {
    assert Head(s, OrderService, TopicInventoryReserved) == held;
    AcceptedEffect(s.order, held, 104);
  }

  lemma BothAccepted(s: Sys, held: Envelope) returns (steps: seq<Step>)
    requires s.order == Charged("SKU-1").order && 103 !in s.issued && 104 !in s.issued
    requires Log(s, TopicPaymentProcessed) == [PAID] && Position(s, OrderService, TopicPaymentProcessed) == 0
    requires Log(s, TopicInventoryReserved) == [held] && Position(s, OrderService, TopicInventoryReserved) == 0
    requires held.key == 102 && held.saga == 1 && held.topic == TopicInventoryReserved
    ensures CanRun(s, steps)
    ensures 1 in Run(s, steps).order.orders && Run(s, steps).order.orders[1].status == Confirmed
  {
    var paid, reserved := OrderStep(TopicPaymentProcessed, 103), OrderStep(TopicInventoryReserved, 104);
    PaymentAccepted(s);
    var s1 := Next(s, paid);
    OffsetAfter(s.position, OrderService, TopicPaymentProcessed, 1, s1.position);
    ReservationAccepted(s1, held);
    RunOne(s1, reserved);
    RunThen(s, paid, [reserved]);
    steps := [paid] + [reserved];
  }

  /** The charge has been published and the reserve call lost. */
  lemma LostRun() returns (steps: seq<Step>, s: Sys)
    ensures CanRun(START, steps) && s == Run(START, steps)
    ensures s == Charged("SKU-1").(logs := map[TopicOrderCreated := [Created("SKU-1")],
                                               TopicPaymentProcessed := [PAID]],
                                   calls := map[], lost := {1})
  {
    steps := ChargedRun("SKU-1");
    Then(START, steps, DropStep(1));
    FirstSent(START, steps + [DropStep(1)], PaymentService, PAID);
    steps := steps + [DropStep(1)] + [SendStep(PaymentService, 0)];
    s := Run(START, steps);
    assert s.calls == map[];
  }

  lemma FirstMarked(s: Sys, steps: seq<Step>, svc: Service, env: Envelope)
    requires CanRun(s, steps) && Outbox(Run(s, steps), svc) == [NewRow(env)] && Log(Run(s, steps), env.topic) == [env]
    ensures CanRun(s, steps + [MarkStep(svc, 0)])
    ensures Run(s, steps + [MarkStep(svc, 0)]) == WithOutbox(Run(s, steps), svc, [NewRow(env).(status := RowPublished)])
  {
    assert [env][0] == env;
    Then(s, steps, MarkStep(svc, 0));
  }

  /** A quiescent state with an order left at PAYMENT_OK: its reserve call was lost. */
  lemma StuckIsReachable() returns (steps: seq<Step>)
    ensures Init(START) && CanRun(START, steps) && Quiescent(Run(START, steps))
    ensures 1 in Run(START, steps).order.orders && StuckAtPaymentOk(Run(START, steps), 1)
  {
    StartIsInitial();
    var s;
    steps, s := LostRun();
    FirstMarked(START, steps, PaymentService, PAID);
    steps := steps + [MarkStep(PaymentService, 0)];
    FirstMarked(START, steps, OrderService, Created("SKU-1"));
    steps := steps + [MarkStep(OrderService, 0)];
    s := Run(START, steps);
    var st := OrderStep(TopicPaymentProcessed, 103);
    PaymentAccepted(s);
    Then(START, steps, st);
    steps := steps + [st];
    StuckIsQuiescent(s, Next(s, st));
  }

  lemma PaymentAccepted(s: Sys)
    requires s.order.orders == Charged("SKU-1").order.orders && s.order.markers == {} && 103 !in s.issued
    requires Log(s, TopicPaymentProcessed) == [PAID] && Position(s, OrderService, TopicPaymentProcessed) == 0
    ensures var st := OrderStep(TopicPaymentProcessed, 103);
            && Enabled(s, st)
            && var s' := Next(s, st);
               && s' == s.(order := s'.order, position := s.position[(OrderService, TopicPaymentProcessed) := 1],
                           issued := s.issued)
               && s'.order == OrderDb(map[1 := OrderRow("SKU-1", 2, 10.0, PaymentOK)], {101}, s.order.outbox)
  {
    assert Head(s, OrderService, TopicPaymentProcessed) == PAID;
    AcceptedEffect(s.order, PAID, 103);
    assert s.order.outbox + [] == s.order.outbox;
  }

  lemma StuckIsQuiescent(s: Sys, s': Sys)
    requires s.logs == map[TopicOrderCreated := [Created("SKU-1")], TopicPaymentProcessed := [PAID]]
    requires s.position == map[(PaymentService, TopicOrderCreated) := 1] && s.calls == map[]
    requires |s.order.outbox| == 1 && s.order.outbox[0].status == RowPublished
    requires |s.payment.outbox| == 1 && s.payment.outbox[0].status == RowPublished && s.inventory.outbox == []
    requires s' == s.(order := s'.order, position := s.position[(OrderService, TopicPaymentProcessed) := 1],
                      issued := s'.issued)
    requires s'.order.outbox == s.order.outbox
    ensures Quiescent(s')
  {
    OffsetAfter(s.position, OrderService, TopicPaymentProcessed, 1, s'.position);
    OffsetAfter(map[], PaymentService, TopicOrderCreated, 1, s.position);
    forall svc, t | Consumes(svc, t) ensures Position(s', svc, t) == |Log(s', t)| {
      assert Offset(map[], svc, t) == 0;
    }
    forall svc, i | 0 <= i < |Outbox(s', svc)| ensures Outbox(s', svc)[i].status == RowPublished {}
  }

  /** Order 1 asked for a sku that is not in stock; Inventory's refusal has been published. */
  lemma RefusedRun() returns (steps: seq<Step>, s: Sys)
    ensures CanRun(START, steps) && s == Run(START, steps)
    ensures s.order == Charged("SKU-9").order && s.payment == Charged("SKU-9").payment
    ensures s.issued.Keys == {100, 101, 102}
    ensures HasNext(s, PaymentService, TopicReservationFailed) && HasNext(s, OrderService, TopicReservationFailed)
    ensures Head(s, PaymentService, TopicReservationFailed) == FailedEnvelope(102, 1, "SKU-9", 2)
    ensures Head(s, OrderService, TopicReservationFailed) == FailedEnvelope(102, 1, "SKU-9", 2)
  {
    steps := ChargedRun("SKU-9");
    var execute, send := ExecuteStep(1, true, 0, 102), SendStep(InventoryService, 0);
    Then(START, steps, execute);
    SkuNineIsRefused();
    FirstSent(START, steps + [execute], InventoryService, FailedEnvelope(102, 1, "SKU-9", 2));
    steps := steps + [execute] + [send];
    s := Run(START, steps);
  }

  lemma SkuNineIsRefused()
    ensures Enabled(Charged("SKU-9"), ExecuteStep(1, true, 0, 102))
    ensures var s := Charged("SKU-9");
            var s' := Next(s, ExecuteStep(1, true, 0, 102));
            var env := FailedEnvelope(102, 1, "SKU-9", 2);
            && s' == s.(inventory := s'.inventory, calls := map[], issued := s.issued[102 := env])
            && s'.inventory.outbox == [NewRow(env)]
  {
    var s := Charged("SKU-9");
    assert s.calls - {1} == map[];
  }

  /** CANCELLED does not imply refunded: the refusal can reach a PENDING order before it reaches Payment. */
  lemma CancelledBeforeRefunded() returns (steps: seq<Step>)
    ensures Init(START) && CanRun(START, steps)
    ensures var s := Run(START, steps);
            && 1 in s.order.orders && s.order.orders[1].status == Cancelled
            && 1 in s.payment.payments && s.payment.payments[1].status == Processed
  {
    StartIsInitial();
    var s;
    steps, s := RefusedRun();
    var st := OrderStep(TopicReservationFailed, 103);
    Then(START, steps, st);
    AcceptedEffect(s.order, Head(s, OrderService, TopicReservationFailed), 103);
    steps := steps + [st];
  }

  /** payment.refunded does not report the charge: 10.0 was charged, 0.0 is reported. */
  lemma RefundMisreportsTheCharge() returns (steps: seq<Step>)
    ensures Init(START) && CanRun(START, steps)
    ensures var s := Run(START, steps);
            && 1 in s.payment.payments && s.payment.payments[1] == PaymentRow(Refunded, 10.0)
            && |s.payment.outbox| == 2
            && s.payment.outbox[1].env.topic == TopicPaymentRefunded
            && s.payment.outbox[1].env.data == PaymentData(0.0)
  {
    StartIsInitial();
    var s;
    steps, s := RefusedRun();
    Then(START, steps, ReservationFailedStep(103));
    steps := steps + [ReservationFailedStep(103)];
  }
}
