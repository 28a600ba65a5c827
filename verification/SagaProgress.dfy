/** Progress: fault-free work always shrinks a measure, and is possible until nothing is left. */
module SagaProgress {
  import opened Messages
  import opened OrderDomain
  import opened Orders
  import opened Payments
  import opened Inventory
  import opened SagaSystem
  import opened SagaView
  import opened SagaInvariant
  import opened OrderSteps
  import opened SagaSafety
  import opened SagaOutcome

  // ----- The measure -----

  /** What a pending row can still cause: its send, its mark, and its records at their consumers. */
  function RowWeight(t: Topic): nat {
    match t
    case TopicOrderCreated => 29
    case TopicOrderCancelled => 5
    case TopicPaymentProcessed | TopicPaymentFailed | TopicPaymentRefunded | TopicInventoryReserved => 8
    case TopicReservationFailed => 17
    case TopicInventoryReleased => 2
  }

  const CALL_WEIGHT := 18

  function RowCost(logs: Logs, r: Row): nat {
    if r.status == RowPublished then 0
    else if r.env in LogOf(logs, r.env.topic) then 1
    else RowWeight(r.env.topic)
  }

  function RowCosts(logs: Logs, rows: seq<Row>): nat {
    if rows == [] then 0 else RowCosts(logs, rows[..|rows| - 1]) + RowCost(logs, rows[|rows| - 1])
  }

  function Unread(s: Sys, svc: Service, t: Topic): nat {
    if Position(s, svc, t) < |Log(s, t)| then |Log(s, t)| - Position(s, svc, t) else 0
  }

  /** What `n` records of a topic can still cause at a consumer of it. */
  function RecordWeight(svc: Service, t: Topic, n: nat): nat {
    match svc
    case OrderService => 6 * n
    case PaymentService => if t == TopicOrderCreated then 27 * n else 9 * n
    case InventoryService => 3 * n
  }

  type Channel = (Service, Topic)

  function RecordCosts(s: Sys, cs: seq<Channel>): nat {
    if cs == [] then 0
    else
      var (svc, t) := cs[0];
      RecordWeight(svc, t, Unread(s, svc, t)) + RecordCosts(s, cs[1..])
  }

  /** Every consumer with each topic it consumes. */
  const CHANNELS: seq<Channel> :=
    [(PaymentService, TopicOrderCreated), (PaymentService, TopicReservationFailed),
     (InventoryService, TopicOrderCancelled),
     (OrderService, TopicPaymentProcessed), (OrderService, TopicPaymentFailed),
     (OrderService, TopicPaymentRefunded), (OrderService, TopicInventoryReserved),
     (OrderService, TopicReservationFailed)]

  function UnreadCost(s: Sys): nat {
    RecordCosts(s, CHANNELS)
  }

  function OutboxCost(s: Sys): nat {
    RowCosts(s.logs, s.order.outbox) + RowCosts(s.logs, s.payment.outbox) + RowCosts(s.logs, s.inventory.outbox)
  }

  function Backlog(s: Sys): nat {
    OutboxCost(s) + UnreadCost(s) + CALL_WEIGHT * |s.calls|
  }

  /** Fault-free steps that do work: a first send, its mark, a handled record, an answered call. */
  predicate Effective(s: Sys, st: Step)
    requires Enabled(s, st)
  {
    match st
    case SendStep(svc, row) => Outbox(s, svc)[row].env !in Log(s, Outbox(s, svc)[row].env.topic)
    case MarkStep(svc, row) => Outbox(s, svc)[row].status == RowPending
    case OrderStep(t, key) => !HandleEvent(s.order, Head(s, OrderService, t), key).1.IsError()
    case CreatedStep(_, _) | ReservationFailedStep(_) | CancelledStep(_) => true
    case ExecuteStep(_, last, _, _) => last
    case CreateStep(_, _, _, _, _) | SendFailsStep(_, _) => false
    case CommitStep(_, _, _) | RewindStep(_, _, _) | DropStep(_) => false
  }

  // ----- Costs of rows -----

  lemma CostsAppend(logs: Logs, rows: seq<Row>, r: Row)
    ensures RowCosts(logs, rows + [r]) == RowCosts(logs, rows) + RowCost(logs, r)
  {
    assert (rows + [r])[..|rows|] == rows;
  }

  lemma {:induction false} CostsUpdate(logs: Logs, rows: seq<Row>, i: nat, r: Row)
    requires i < |rows|
    ensures RowCosts(logs, rows[i := r]) == RowCosts(logs, rows) - RowCost(logs, rows[i]) + RowCost(logs, r)
  {
    var init := rows[..|rows| - 1];
    if i < |rows| - 1 {
      CostsUpdate(logs, init, i, r);
      assert rows[i := r][..|rows| - 1] == init[i := r];
    } else {
      assert rows[i := r][..|rows| - 1] == init;
    }
  }

  /** A transaction that appends at most the row `r` costs at most its weight. */
  lemma CostsGrow(logs: Logs, rows: seq<Row>, rows': seq<Row>, r: Row)
    requires rows' == rows || rows' == rows + [r]
    ensures RowCosts(logs, rows') <= RowCosts(logs, rows) + RowWeight(r.env.topic)
  {
    CostsAppend(logs, rows, r);
  }

  lemma CostFalls(logs: Logs, logs': Logs, r: Row)
    requires LogsGrow(logs, logs')
    ensures RowCost(logs', r) <= RowCost(logs, r)
  {
    assert LogOf(logs, r.env.topic) <= LogOf(logs', r.env.topic);
  }

  lemma {:induction false} CostsShrink(logs: Logs, logs': Logs, rows: seq<Row>)
    requires LogsGrow(logs, logs')
    ensures RowCosts(logs', rows) <= RowCosts(logs, rows)
  {
    if rows != [] {
      CostsShrink(logs, logs', rows[..|rows| - 1]);
      CostFalls(logs, logs', rows[|rows| - 1]);
    }
  }

  /** Once the envelope of row `i` is in the log, only its mark is left to do. */
  lemma {:induction false} CostsShrinkAt(logs: Logs, logs': Logs, rows: seq<Row>, i: nat)
    requires LogsGrow(logs, logs') && i < |rows|
    ensures RowCosts(logs', rows) + RowCost(logs, rows[i]) <= RowCosts(logs, rows) + RowCost(logs', rows[i])
  {
    if i < |rows| - 1 {
      CostsShrinkAt(logs, logs', rows[..|rows| - 1], i);
      CostFalls(logs, logs', rows[|rows| - 1]);
    } else {
      CostsShrink(logs, logs', rows[..|rows| - 1]);
    }
  }

  // ----- Every effective step shrinks the backlog -----

  lemma SendShrinks(s: Sys, svc: Service, row: nat)
    requires Inv(s) && Enabled(s, SendStep(svc, row)) && Effective(s, SendStep(svc, row))
    ensures Backlog(Next(s, SendStep(svc, row))) < Backlog(s)
  {
    var r := Outbox(s, svc)[row];
    var s' := Send(s, r.env);
    SendGrowsLogs(s, r.env);
    CostsShrink(s.logs, s'.logs, s.order.outbox);
    CostsShrink(s.logs, s'.logs, s.payment.outbox);
    CostsShrink(s.logs, s'.logs, s.inventory.outbox);
    CostsShrinkAt(s.logs, s'.logs, Outbox(s, svc), row);
    assert OutboxCost(s') + RowWeight(r.env.topic) <= OutboxCost(s) + 1;
    UnreadAfterSend(s, r.env);
  }

  /** What one record on topic `t` can still cause at all its consumers. */
  function TopicWeight(t: Topic, cs: seq<Channel>): nat {
    if cs == [] then 0
    else (if cs[0].1 == t then RecordWeight(cs[0].0, t, 1) else 0) + TopicWeight(t, cs[1..])
  }

  lemma TopicWeightOfTwo(t: Topic, a: Channel, b: Channel, cs: seq<Channel>)
    ensures TopicWeight(t, [a, b] + cs)
         == (if a.1 == t then RecordWeight(a.0, t, 1) else 0) + (if b.1 == t then RecordWeight(b.0, t, 1) else 0)
            + TopicWeight(t, cs)
  {
    assert ([a, b] + cs)[1..] == [b] + cs;
    assert ([b] + cs)[1..] == cs;
  }

  /** The weight of a row pays for its send, its mark and its records. */
  lemma RowCoversItsRecords(t: Topic)
    ensures TopicWeight(t, CHANNELS) + 2 <= RowWeight(t)
  {
    var cs := CHANNELS;
    assert cs == [cs[0], cs[1]] + ([cs[2], cs[3]] + ([cs[4], cs[5]] + ([cs[6], cs[7]] + [])));
    TopicWeightOfTwo(t, cs[6], cs[7], []);
    TopicWeightOfTwo(t, cs[4], cs[5], [cs[6], cs[7]] + []);
    TopicWeightOfTwo(t, cs[2], cs[3], [cs[4], cs[5]] + ([cs[6], cs[7]] + []));
    TopicWeightOfTwo(t, cs[0], cs[1], [cs[2], cs[3]] + ([cs[4], cs[5]] + ([cs[6], cs[7]] + [])));
  }

  lemma {:induction false} CostsOfOneMore(s: Sys, s': Sys, t: Topic, cs: seq<Channel>)
    requires forall c, u :: Unread(s', c, u) == Unread(s, c, u) + if u == t then 1 else 0
    ensures RecordCosts(s', cs) == RecordCosts(s, cs) + TopicWeight(t, cs)
  {
    if cs != [] {
      CostsOfOneMore(s, s', t, cs[1..]);
    }
  }

  ghost predicate Distinct(cs: seq<Channel>) {
    forall i, j :: 0 <= i < j < |cs| ==> cs[i] != cs[j]
  }

  /** Handling the head of topic `t` at `svc` leaves one record less there and the same elsewhere. */
  lemma UnreadAt(s: Sys, s': Sys, svc: Service, t: Topic, c: Service, u: Topic)
    requires HasNext(s, svc, t) && s'.logs == s.logs && s'.position == Advance(s, svc, t)
    ensures Unread(s, c, u) == Unread(s', c, u) + if c == svc && u == t then 1 else 0
  {
    OffsetAfter(s.position, svc, t, Position(s, svc, t) + 1, s'.position);
    assert Log(s', u) == Log(s, u);
  }

  lemma {:induction false} CostsOfOneLess(s: Sys, s': Sys, svc: Service, t: Topic, cs: seq<Channel>)
    requires HasNext(s, svc, t) && s'.logs == s.logs && s'.position == Advance(s, svc, t)
    requires Distinct(cs)
    ensures RecordCosts(s, cs) == RecordCosts(s', cs) + if (svc, t) in cs then RecordWeight(svc, t, 1) else 0
  {
    if cs != [] {
      CostsOfOneLess(s, s', svc, t, cs[1..]);
      UnreadAt(s, s', svc, t, cs[0].0, cs[0].1);
      assert cs == [cs[0]] + cs[1..];
    }
  }

  lemma ChannelsAreTheConsumed(svc: Service, t: Topic)
    requires Consumes(svc, t)
    ensures Distinct(CHANNELS) && (svc, t) in CHANNELS
  {
  }

  lemma UnreadAfterSend(s: Sys, env: Envelope)
    requires OffsetsOk(s)
    ensures UnreadCost(Send(s, env)) + 2 <= UnreadCost(s) + RowWeight(env.topic)
  {
    var s' := Send(s, env);
    forall svc, t ensures Unread(s', svc, t) == Unread(s, svc, t) + if t == env.topic then 1 else 0 {
      assert Committed(s, svc, t) <= Position(s, svc, t) <= |Log(s, t)|;
    }
    CostsOfOneMore(s, s', env.topic, CHANNELS);
    RowCoversItsRecords(env.topic);
  }

  lemma MarkShrinks(s: Sys, svc: Service, row: nat)
    requires Enabled(s, MarkStep(svc, row)) && Effective(s, MarkStep(svc, row))
    ensures Backlog(Next(s, MarkStep(svc, row))) < Backlog(s)
  {
    var r := Outbox(s, svc)[row];
    CostsUpdate(s.logs, Outbox(s, svc), row, r.(status := RowPublished));
    UnreadSame(s, Next(s, MarkStep(svc, row)));
  }

  lemma UnreadSame(s: Sys, s': Sys)
    requires s'.logs == s.logs && s'.position == s.position
    ensures UnreadCost(s') == UnreadCost(s)
  {
    SameCosts(s, s', CHANNELS);
  }

  lemma {:induction false} SameCosts(s: Sys, s': Sys, cs: seq<Channel>)
    requires s'.logs == s.logs && s'.position == s.position
    ensures RecordCosts(s', cs) == RecordCosts(s, cs)
  {
    if cs != [] {
      SameCosts(s, s', cs[1..]);
    }
  }

  lemma UnreadAfterHandling(s: Sys, s': Sys, svc: Service, t: Topic)
    requires HasNext(s, svc, t) && s'.logs == s.logs && s'.position == Advance(s, svc, t)
    ensures UnreadCost(s') + RecordWeight(svc, t, 1) == UnreadCost(s)
  {
    ChannelsAreTheConsumed(svc, t);
    CostsOfOneLess(s, s', svc, t, CHANNELS);
  }

  lemma OrderShrinks(s: Sys, t: Topic, key: Id)
    requires Enabled(s, OrderStep(t, key)) && Effective(s, OrderStep(t, key))
    ensures Backlog(Next(s, OrderStep(t, key))) < Backlog(s)
  {
    var e := Head(s, OrderService, t);
    var s' := Next(s, OrderStep(t, key));
    if HandleEvent(s.order, e, key).1.IsFirstAcceptance() {
      AcceptedEffect(s.order, e, key);
      assert s.order.outbox + [] == s.order.outbox;
    }
    CostsGrow(s.logs, s.order.outbox, s'.order.outbox, NewRow(CancelledEnvelope(key, e.saga)));
    UnreadAfterHandling(s, s', OrderService, t);
  }

  lemma CreatedOutboxCost(s: Sys, forceFailure: bool, key: Id)
    requires Enabled(s, CreatedStep(forceFailure, key))
    ensures var s' := Next(s, CreatedStep(forceFailure, key));
            OutboxCost(s') <= OutboxCost(s) + 8 && |s'.calls| <= |s.calls| + 1
  {
    var e := Head(s, PaymentService, TopicOrderCreated);
    var s' := Next(s, CreatedStep(forceFailure, key));
    var amount := AmountOf(e.data);
    var status := if Approved(amount, forceFailure) then Processed else Failed;
    CostsGrow(s.logs, s.payment.outbox, s'.payment.outbox, NewRow(PaymentEnvelope(key, e.saga, status, amount)));
  }

  lemma CreatedShrinks(s: Sys, forceFailure: bool, key: Id)
    requires Enabled(s, CreatedStep(forceFailure, key))
    ensures Backlog(Next(s, CreatedStep(forceFailure, key))) < Backlog(s)
  {
    CreatedOutboxCost(s, forceFailure, key);
    UnreadAfterHandling(s, Next(s, CreatedStep(forceFailure, key)), PaymentService, TopicOrderCreated);
  }

  lemma RefundShrinks(s: Sys, key: Id)
    requires Enabled(s, ReservationFailedStep(key))
    ensures Backlog(Next(s, ReservationFailedStep(key))) < Backlog(s)
  {
    var e := Head(s, PaymentService, TopicReservationFailed);
    var s' := Next(s, ReservationFailedStep(key));
    CostsGrow(s.logs, s.payment.outbox, s'.payment.outbox,
              NewRow(PaymentEnvelope(key, e.saga, Refunded, AmountOf(e.data))));
    UnreadAfterHandling(s, s', PaymentService, TopicReservationFailed);
  }

  lemma ReleaseShrinks(s: Sys, key: Id)
    requires Enabled(s, CancelledStep(key))
    ensures Backlog(Next(s, CancelledStep(key))) < Backlog(s)
  {
    var e := Head(s, InventoryService, TopicOrderCancelled);
    var s' := Next(s, CancelledStep(key));
    CostsGrow(s.logs, s.inventory.outbox, s'.inventory.outbox, NewRow(ReleasedEnvelope(key, e.saga)));
    UnreadAfterHandling(s, s', InventoryService, TopicOrderCancelled);
  }

  lemma ExecuteShrinks(s: Sys, saga: Id, rid: Id, key: Id)
    requires Enabled(s, ExecuteStep(saga, true, rid, key))
    ensures Backlog(Next(s, ExecuteStep(saga, true, rid, key))) < Backlog(s)
  {
    var s' := Next(s, ExecuteStep(saga, true, rid, key));
    var r := if |s'.inventory.outbox| > |s.inventory.outbox| then s'.inventory.outbox[|s.inventory.outbox|]
             else NewRow(FailedEnvelope(key, saga, "", 0));
    assert RowWeight(r.env.topic) <= 17;
    CostsGrow(s.logs, s.inventory.outbox, s'.inventory.outbox, r);
    assert s'.calls.Keys == s.calls.Keys - {saga};
    assert |s'.calls| == |s.calls| - 1;
    UnreadSame(s, s');
  }

  lemma EffectiveShrinks(s: Sys, st: Step)
    requires Inv(s) && Enabled(s, st) && Effective(s, st)
    ensures Backlog(Next(s, st)) < Backlog(s)
  {
    match st
    case SendStep(svc, row) => SendShrinks(s, svc, row);
    case MarkStep(svc, row) => MarkShrinks(s, svc, row);
    case OrderStep(t, key) => OrderShrinks(s, t, key);
    case CreatedStep(forceFailure, key) => CreatedShrinks(s, forceFailure, key);
    case ReservationFailedStep(key) => RefundShrinks(s, key);
    case CancelledStep(key) => ReleaseShrinks(s, key);
    case ExecuteStep(saga, last, rid, key) => ExecuteShrinks(s, saga, rid, key);
  }

  // ----- Parking never deadlocks -----

  /** The topic whose event a parked event waits for. */
  function Prerequisite(t: Topic): Topic {
    if t == TopicInventoryReserved then TopicPaymentProcessed else TopicReservationFailed
  }

  /** No state parks a PaymentProcessed or an InventoryReservationFailed. */
  lemma PrerequisitesAreNeverParked(db: OrderDb, e: Envelope, key: Id)
    requires e.topic in {TopicPaymentProcessed, TopicReservationFailed}
    ensures HandleEvent(db, e, key).1 != Premature
  {
  }

  lemma PrerequisiteIsOutstanding(v: View, id: Id, t: Topic)
    requires ViewOk(v, id) && v.order.Some? && Consumes(OrderService, t) && EvAt(v, t) == Once(false)
    requires Apply(v.order.value.status, TopicTrigger(t).value).ErrPrematureEvent?
    ensures Consumes(OrderService, Prerequisite(t)) && EvAt(v, Prerequisite(t)) == Once(false)
  {
  }

  /** Whatever Order parks, the event it waits for has been emitted and is still owed to Order. */
  lemma ParkedIsOwedItsPrerequisite(s: Sys, t: Topic, e: Envelope, key: Id)
    requires Inv(s) && Consumes(OrderService, t) && RecordOk(s, t, e)
    requires HandleEvent(s.order, e, key).1 == Premature
    ensures exists p: Envelope :: p.saga == e.saga && p.topic == Prerequisite(t) && Owed(s, OrderService, p)
  {
    assert ViewOk(ViewOf(s, e.saga), e.saga);
    OrderKnowsTheRecord(s, t, e);
    PrerequisiteIsOutstanding(ViewOf(s, e.saga), e.saga, t);
    EvAtOfView(s, e.saga, Prerequisite(t));
    OutstandingIsOwed(s, e.saga, Prerequisite(t));
  }

  lemma OutstandingIsOwed(s: Sys, id: Id, t: Topic)
    requires Inv(s) && Consumes(OrderService, t)
    requires EvOf(Outbox(s, Producer(t)), s.order.markers, id, t) == Once(false)
    ensures exists p: Envelope :: p.saga == id && p.topic == t && Owed(s, OrderService, p)
  {
    var k := Emitted(Outbox(s, Producer(t)), id, t)[0];
    UnhandledIsOwed(s, OrderService, id, t, k);
    var p := s.issued[k];
    assert p.saga == id && p.topic == t && Owed(s, OrderService, p);
  }

  /** If the head of one topic is parked, the head of another can be handled. */
  lemma SomeHeadIsAccepted(s: Sys, t: Topic, key: Id) returns (u: Topic)
    requires Inv(s) && AllPublished(s) && HasNext(s, OrderService, t)
    ensures HasNext(s, OrderService, u) && !HandleEvent(s.order, Head(s, OrderService, u), key).1.IsError()
  {
    var e := HeadIsEmitted(s, OrderService, t);
    if HandleEvent(s.order, e, key).1 != Premature {
      u := t;
    } else {
      ParkedIsOwedItsPrerequisite(s, t, e, key);
      u := Prerequisite(t);
      assert HasNext(s, OrderService, u);
      var f := HeadIsEmitted(s, OrderService, u);
      PrerequisitesAreNeverParked(s.order, f, key);
    }
  }

  /** A row of an outbox that its relay has still to send or mark. */
  ghost predicate Unsent(s: Sys, svc: Service, id: Id, t: Topic) {
    exists i :: 0 <= i < |Outbox(s, svc)| && Outbox(s, svc)[i].status == RowPending
                && Outbox(s, svc)[i].env.saga == id && Outbox(s, svc)[i].env.topic == t
  }

  /**
   When every unread head at Order is premature, what each of them waits for is a PENDING row in the outbox
   of the service that produces it.
   */
  lemma AllParkedMeansUnsent(s: Sys, t: Topic, key: Id)
    requires Inv(s) && HasNext(s, OrderService, t)
    requires forall u :: HasNext(s, OrderService, u) ==>
             HandleEvent(s.order, Head(s, OrderService, u), key).1 == Premature
    ensures Unsent(s, Producer(Prerequisite(t)), Head(s, OrderService, t).saga, Prerequisite(t))
  {
    var u := Prerequisite(t);
    var e := HeadIsEmitted(s, OrderService, t);
    ParkedIsOwedItsPrerequisite(s, t, e, key);
    var p: Envelope :| p.saga == e.saga && p.topic == u && Owed(s, OrderService, p);
    if HasNext(s, OrderService, u) {
      var f := HeadIsEmitted(s, OrderService, u);
      PrerequisitesAreNeverParked(s.order, f, key);
    }
  }

  // ----- Work is enabled until nothing is left -----

  /** There is always a UUID that has not been drawn yet. */
  lemma {:induction false} FreshId(used: set<Id>) returns (k: Id)
    ensures forall j :: j in used ==> j < k
    decreases |used|
  {
    if used == {} {
      k := 0;
    } else {
      var j :| j in used;
      var m := FreshId(used - {j});
      k := if j < m then m else j + 1;
      assert forall i :: i in used ==> i == j || i in used - {j};
    }
  }

  lemma RowWork(s: Sys, svc: Service, row: nat) returns (st: Step)
    requires row < |Outbox(s, svc)| && Outbox(s, svc)[row].status == RowPending
    ensures Enabled(s, st) && Effective(s, st)
  {
    var env := Outbox(s, svc)[row].env;
    st := if env in Log(s, env.topic) then MarkStep(svc, row) else SendStep(svc, row);
  }

  lemma RecordWork(s: Sys, svc: Service, t: Topic, key: Id) returns (st: Step)
    requires Inv(s) && AllPublished(s) && HasNext(s, svc, t) && key !in s.issued
    ensures Enabled(s, st) && Effective(s, st)
  {
    match svc {
      case OrderService =>
        var u := SomeHeadIsAccepted(s, t, key);
        st := OrderStep(u, key);
      case PaymentService =>
        st := if t == TopicOrderCreated then CreatedStep(false, key) else ReservationFailedStep(key);
      case InventoryService =>
        st := CancelledStep(key);
    }
  }

  /** In every reachable state with work left, some fault-free step does some of it. */
  lemma WorkIsEnabled(s: Sys) returns (st: Step)
    requires Inv(s) && !Quiescent(s)
    ensures Enabled(s, st) && Effective(s, st)
  {
    var key := FreshId(s.issued.Keys);
    if !AllPublished(s) {
      var svc, row :| 0 <= row < |Outbox(s, svc)| && Outbox(s, svc)[row].status != RowPublished;
      st := RowWork(s, svc, row);
    } else if s.calls != map[] {
      var saga :| saga in s.calls;
      st := ExecuteStep(saga, true, 0, key);
    } else {
      var svc, t :| Consumes(svc, t) && Position(s, svc, t) != |Log(s, t)|;
      assert Committed(s, svc, t) <= Position(s, svc, t) <= |Log(s, t)|;
      st := RecordWork(s, svc, t, key);
    }
  }

  // ----- Runs of fault-free work -----

  ghost predicate EffectiveRun(s: Sys, steps: seq<Step>)
    decreases |steps|
  {
    steps == [] || (Enabled(s, steps[0]) && Effective(s, steps[0]) && EffectiveRun(Next(s, steps[0]), steps[1..]))
  }

  /** No fault-free schedule, fair or not, can go on for longer than the backlog. */
  lemma {:induction false} EffectiveRunsAreBounded(s: Sys, steps: seq<Step>)
    requires Inv(s) && EffectiveRun(s, steps)
    ensures CanRun(s, steps) && |steps| + Backlog(Run(s, steps)) <= Backlog(s)
    decreases |steps|
  {
    if steps != [] {
      StepKeeps(s, steps[0]);
      EffectiveShrinks(s, steps[0]);
      EffectiveRunsAreBounded(Next(s, steps[0]), steps[1..]);
    }
  }

  lemma EffectiveCons(s: Sys, st: Step, rest: seq<Step>)
    requires Enabled(s, st) && Effective(s, st) && EffectiveRun(Next(s, st), rest) && CanRun(Next(s, st), rest)
    ensures EffectiveRun(s, [st] + rest) && CanRun(s, [st] + rest) && Run(s, [st] + rest) == Run(Next(s, st), rest)
  {
    assert ([st] + rest)[1..] == rest;
  }

  /** From every reachable state some fault-free run reaches quiescence. */
  lemma {:induction false} WorkRunsOut(s: Sys) returns (steps: seq<Step>)
    requires Inv(s)
    ensures EffectiveRun(s, steps) && CanRun(s, steps) && Quiescent(Run(s, steps))
    decreases Backlog(s)
  {
    if Quiescent(s) {
      steps := [];
    } else {
      var st := WorkIsEnabled(s);
      StepKeeps(s, st);
      EffectiveShrinks(s, st);
      var rest := WorkRunsOut(Next(s, st));
      steps := [st] + rest;
      EffectiveCons(s, st, rest);
    }
  }

  lemma {:induction false} RunConcat(s: Sys, a: seq<Step>, b: seq<Step>)
    requires CanRun(s, a) && CanRun(Run(s, a), b)
    ensures CanRun(s, a + b) && Run(s, a + b) == Run(Run(s, a), b)
    decreases |a|
  {
    if a == [] {
      assert a + b == b;
    } else {
      assert (a + b)[1..] == a[1..] + b;
      RunConcat(Next(s, a[0]), a[1..], b);
    }
  }

  /** Whatever has happened so far, the saga can still run to completion without another fault. */
  lemma EveryRunCanComplete(s0: Sys, steps: seq<Step>) returns (rest: seq<Step>)
    requires Init(s0) && CanRun(s0, steps)
    ensures EffectiveRun(Run(s0, steps), rest) && |rest| <= Backlog(Run(s0, steps))
    ensures CanRun(s0, steps + rest) && Quiescent(Run(s0, steps + rest))
  {
    ReachableInv(s0, steps);
    rest := WorkRunsOut(Run(s0, steps));
    EffectiveRunsAreBounded(Run(s0, steps), rest);
    RunConcat(s0, steps, rest);
  }
}
