/** Order's consumer loop, interleaved at every point with everything else, is a run of the system. */
module LoopRefinement {
  import opened Messages
  import opened Orders
  import opened SagaSystem
  import opened SagaProgress
  import opened OrderConsumer
  import opened OrderRetries

  lemma RunOne(s: Sys, st: Step)
    requires Enabled(s, st)
    ensures CanRun(s, [st]) && Run(s, [st]) == Next(s, st)
  {
    assert [st][1..] == [];
  }

  lemma RunThen(s: Sys, st: Step, rest: seq<Step>)
    requires Enabled(s, st) && CanRun(Next(s, st), rest)
    ensures CanRun(s, [st] + rest) && Run(s, [st] + rest) == Run(Next(s, st), rest)
  {
    assert ([st] + rest)[1..] == rest;
  }

  // ----- Records in sequence -----

  /** Each record is the next one of its topic when its turn comes. */
  predicate InSequence(position: map<Topic, nat>, refs: seq<Ref>)
    decreases |refs|
  {
    refs == [] || (&& refs[0].offset == At(position, refs[0].topic)
                   && InSequence(position[refs[0].topic := refs[0].offset + 1], refs[1..]))
  }

  function Walked(position: map<Topic, nat>, refs: seq<Ref>): map<Topic, nat>
    decreases |refs|
  {
    if refs == [] then position else Walked(position[refs[0].topic := refs[0].offset + 1], refs[1..])
  }

  ghost predicate SamePositions(p: map<Topic, nat>, p': map<Topic, nat>) {
    forall t :: At(p', t) == At(p, t)
  }

  lemma {:induction false} InSequenceSame(p: map<Topic, nat>, p': map<Topic, nat>, refs: seq<Ref>)
    requires SamePositions(p, p')
    ensures InSequence(p', refs) <==> InSequence(p, refs)
    ensures SamePositions(Walked(p, refs), Walked(p', refs))
    decreases |refs|
  {
    if refs != [] {
      var q, q' := p[refs[0].topic := refs[0].offset + 1], p'[refs[0].topic := refs[0].offset + 1];
      forall t ensures At(q', t) == At(q, t) {
        assert At(p', t) == At(p, t);
      }
      InSequenceSame(q, q', refs[1..]);
    }
  }

  lemma InSequenceCons(p: map<Topic, nat>, r: Ref, rest: seq<Ref>)
    requires r.offset == At(p, r.topic) && InSequence(p[r.topic := r.offset + 1], rest)
    ensures InSequence(p, [r] + rest) && Walked(p, [r] + rest) == Walked(p[r.topic := r.offset + 1], rest)
  {
    assert ([r] + rest)[1..] == rest;
  }

  lemma PartitionCons(t: Topic, from: nat, count: nat, more: seq<Ref>)
    requires count > 0
    ensures PartitionRefs(t, from, count) + more == [Ref(t, from)] + (PartitionRefs(t, from + 1, count - 1) + more)
  {
  }

  lemma {:induction false} PartitionInSequence(p: map<Topic, nat>, t: Topic, count: nat, more: seq<Ref>)
    requires InSequence(p[t := At(p, t) + count], more)
    ensures InSequence(p, PartitionRefs(t, At(p, t), count) + more)
    ensures SamePositions(Walked(p, PartitionRefs(t, At(p, t), count) + more), Walked(p[t := At(p, t) + count], more))
    decreases count
  {
    var n := At(p, t);
    if count == 0 {
      assert PartitionRefs(t, n, count) + more == more;
      InSequenceSame(p[t := n + count], p, more);
    } else {
      var p1 := p[t := n + 1];
      assert p1[t := n + count] == p[t := n + count];
      PartitionInSequence(p1, t, count - 1, more);
      PartitionCons(t, n, count, more);
      InSequenceCons(p, Ref(t, n), PartitionRefs(t, n + 1, count - 1) + more);
    }
  }

  /** The records of a poll come in the order in which each topic's offsets allow them. */
  lemma {:induction false} FetchInSequence(p: map<Topic, nat>, fetch: seq<Fetched>)
    requires forall i, j :: 0 <= i < j < |fetch| ==> fetch[i].topic != fetch[j].topic
    ensures InSequence(p, Refs(p, fetch))
    ensures SamePositions(Walked(p, Refs(p, fetch)), Advanced(p, fetch))
    decreases |fetch|
  {
    if fetch != [] {
      var f := fetch[0];
      var p1 := p[f.topic := At(p, f.topic) + f.count];
      RefsElsewhere(p, p1, fetch[1..]);
      FetchInSequence(p1, fetch[1..]);
      PartitionInSequence(p, f.topic, f.count, Refs(p, fetch[1..]));
    }
  }

  // ----- Moving offsets -----

  lemma {:induction false} RewindIsARun(s: Sys, svc: Service, p: map<Topic, nat>, ts: seq<Topic>)
    returns (steps: seq<Step>)
    requires forall t :: t in ts ==> Offset(s.committed, svc, t) <= At(p, t) <= Offset(s.position, svc, t)
    ensures CanRun(s, steps)
    ensures var s' := Run(s, steps);
            && s' == s.(position := s'.position)
            && (forall t :: t in ts ==> Offset(s'.position, svc, t) == At(p, t))
            && forall c, t :: c != svc || t !in ts ==> Offset(s'.position, c, t) == Offset(s.position, c, t)
    decreases |ts|
  {
    steps := [];
    if ts != [] {
      if ts[0] in ts[1..] {
        steps := RewindIsARun(s, svc, p, ts[1..]);
      } else {
        var st := RewindStep(svc, ts[0], At(p, ts[0]));
        var rest := RewindIsARun(Next(s, st), svc, p, ts[1..]);
        RunThen(s, st, rest);
        steps := [st] + rest;
      }
    }
  }

  lemma {:induction false} CommitIsARun(s: Sys, ts: seq<Topic>) returns (steps: seq<Step>)
    requires forall t :: t in ts ==> Offset(s.committed, OrderService, t) <= Offset(s.position, OrderService, t)
    ensures CanRun(s, steps)
    ensures var s' := Run(s, steps);
            && s' == s.(committed := s'.committed)
            && (forall t :: t in ts ==> Offset(s'.committed, OrderService, t) == Offset(s.position, OrderService, t))
            && forall c, t :: c != OrderService || t !in ts ==> Offset(s'.committed, c, t) == Offset(s.committed, c, t)
    decreases |ts|
  {
    steps := [];
    if ts != [] {
      if ts[0] in ts[1..] {
        steps := CommitIsARun(s, ts[1..]);
      } else {
        var st := CommitStep(OrderService, ts[0], Offset(s.position, OrderService, ts[0]));
        forall t | t in ts[1..]
          ensures Offset(Next(s, st).committed, OrderService, t) <= Offset(Next(s, st).position, OrderService, t)
        {
          assert t in ts;
        }
        var rest := CommitIsARun(Next(s, st), ts[1..]);
        RunThen(s, st, rest);
        steps := [st] + rest;
      }
    }
  }

  const ALL_TOPICS := [
    TopicOrderCreated, TopicOrderCancelled, TopicPaymentProcessed, TopicPaymentFailed, TopicPaymentRefunded,
    TopicInventoryReserved, TopicReservationFailed, TopicInventoryReleased]

  lemma EveryTopic(t: Topic)
    ensures t in ALL_TOPICS
  {
    assert ALL_TOPICS[0] == TopicOrderCreated && ALL_TOPICS[1] == TopicOrderCancelled;
    assert ALL_TOPICS[2] == TopicPaymentProcessed && ALL_TOPICS[3] == TopicPaymentFailed;
    assert ALL_TOPICS[4] == TopicPaymentRefunded && ALL_TOPICS[5] == TopicInventoryReserved;
    assert ALL_TOPICS[6] == TopicReservationFailed && ALL_TOPICS[7] == TopicInventoryReleased;
  }

  // ----- Order's loop, act by act -----

  /** Between polls, or with records left to dispatch and the positions to go back to on an error. */
  datatype Loop = Waiting | Working(rewind: map<Topic, nat>, todo: seq<Ref>)

  datatype Client = Client(position: map<Topic, nat>, committed: map<Topic, nat>, loop: Loop)

  /** The system with Order's client; the offsets that `sys` has for Order are neither read nor written. */
  datatype Host = Host(sys: Sys, client: Client)

  datatype Move =
    | ReceiveMove(fetch: seq<Fetched>)
    | HandleMove(key: Id, fault: HandlerFault)
    | FinishMove(commits: bool)
    | RestartMove
    | OtherMove(st: Step)

  predicate MovesOrder(st: Step) {
    || st.OrderStep? || (st.CommitStep? && st.svc == OrderService) || (st.RewindStep? && st.svc == OrderService)
  }

  predicate Consumable(fetch: seq<Fetched>) {
    forall i :: 0 <= i < |fetch| ==> Consumes(OrderService, fetch[i].topic)
  }

  predicate CanMove(h: Host, m: Move) {
    match m
    case ReceiveMove(fetch) =>
      h.client.loop.Waiting? && ValidFetch(h.sys.logs, h.client.position, fetch) && Consumable(fetch)
    case HandleMove(key, _) =>
      && h.client.loop.Working? && h.client.loop.todo != [] && Exist(h.sys.logs, h.client.loop.todo)
      && key !in h.sys.issued
    case FinishMove(_) => h.client.loop.Working? && h.client.loop.todo == []
    case RestartMove => true
    case OtherMove(st) => !MovesOrder(st) && Enabled(h.sys, st)
  }

  function Record(h: Host): Envelope
    requires h.client.loop.Working? && h.client.loop.todo != [] && Exist(h.sys.logs, h.client.loop.todo)
  {
    var r := h.client.loop.todo[0];
    LogOf(h.sys.logs, r.topic)[r.offset]
  }

  function DoMove(h: Host, m: Move): Host
    requires CanMove(h, m)
  {
    var c := h.client;
    match m
    case ReceiveMove(fetch) =>
      h.(client := c.(position := Advanced(c.position, fetch), loop := Working(c.position, Refs(c.position, fetch))))
    case HandleMove(key, fault) =>
      var r := Attempt(h.sys.order, Record(h), key, fault);
      Host(h.sys.(order := r.0, issued := Register(h.sys.issued, h.sys.order.outbox, r.0.outbox)),
           if r.1.IsError() then c.(position := c.loop.rewind, loop := Waiting)
           else c.(loop := Working(c.loop.rewind, c.loop.todo[1..])))
    case FinishMove(commits) =>
      h.(client := c.(committed := if commits then c.position else c.committed, loop := Waiting))
    case RestartMove => h.(client := c.(position := c.committed, loop := Waiting))
    case OtherMove(st) => h.(sys := Next(h.sys, st))
  }

  predicate CanMoveAll(h: Host, moves: seq<Move>)
    decreases |moves|
  {
    moves == [] || (CanMove(h, moves[0]) && CanMoveAll(DoMove(h, moves[0]), moves[1..]))
  }

  function MoveAll(h: Host, moves: seq<Move>): Host
    requires CanMoveAll(h, moves)
    decreases |moves|
  {
    if moves == [] then h else MoveAll(DoMove(h, moves[0]), moves[1..])
  }

  // ----- Simulation -----

  /** The same system but for Order's offsets. */
  ghost predicate SameButOrder(s: Sys, a: Sys) {
    && a == s.(position := a.position, committed := a.committed)
    && SameOffsets(s.position, a.position) && SameOffsets(s.committed, a.committed)
  }

  ghost predicate SameOffsets(m: map<(Service, Topic), nat>, m': map<(Service, Topic), nat>) {
    forall c, t :: c != OrderService ==> Offset(m', c, t) == Offset(m, c, t)
  }

  lemma SameOffsetsUpdate(m: map<(Service, Topic), nat>, m': map<(Service, Topic), nat>, svc: Service, t: Topic, n: nat)
    requires SameOffsets(m, m')
    ensures SameOffsets(m[(svc, t) := n], m'[(svc, t) := n])
  {
    OffsetAfter(m, svc, t, n, m[(svc, t) := n]);
    OffsetAfter(m', svc, t, n, m'[(svc, t) := n]);
  }

  lemma OrderMoved(m: map<(Service, Topic), nat>, m': map<(Service, Topic), nat>, t: Topic, n: nat)
    requires SameOffsets(m, m')
    ensures SameOffsets(m, m'[(OrderService, t) := n])
  {
    OffsetAfter(m', OrderService, t, n, m'[(OrderService, t) := n]);
  }

  /** In `a`, Order's positions are at `cursor`, its commits at `committed`. */
  ghost predicate OrderAt(a: Sys, cursor: map<Topic, nat>, committed: map<Topic, nat>) {
    && (forall t :: Offset(a.position, OrderService, t) == At(cursor, t))
    && (forall t :: Offset(a.committed, OrderService, t) == At(committed, t))
    && forall t :: At(committed, t) <= At(cursor, t)
  }

  /** What the client has in hand takes the cursor, record by record, to the client's positions. */
  ghost predicate InHand(logs: Logs, c: Client, cursor: map<Topic, nat>) {
    match c.loop
    case Waiting => SamePositions(cursor, c.position)
    case Working(rewind, todo) =>
      && InSequence(cursor, todo) && Exist(logs, todo) && SamePositions(Walked(cursor, todo), c.position)
      && (forall i :: 0 <= i < |todo| ==> Consumes(OrderService, todo[i].topic))
      && forall t :: At(c.committed, t) <= At(rewind, t) <= At(cursor, t)
  }

  /** `a` is the system that the host stands for: its cursor is behind the client's while a batch is worked on. */
  ghost predicate Simulates(h: Host, a: Sys, cursor: map<Topic, nat>) {
    SameButOrder(h.sys, a) && OrderAt(a, cursor, h.client.committed) && InHand(h.sys.logs, h.client, cursor)
  }

  lemma {:induction false} RefsAreConsumable(p: map<Topic, nat>, fetch: seq<Fetched>)
    requires Consumable(fetch)
    ensures forall i :: 0 <= i < |Refs(p, fetch)| ==> Consumes(OrderService, Refs(p, fetch)[i].topic)
  {
    if fetch != [] {
      RefsAreConsumable(p, fetch[1..]);
    }
  }

  lemma ReceiveSimulates(h: Host, a: Sys, cursor: map<Topic, nat>, fetch: seq<Fetched>)
    requires Simulates(h, a, cursor) && CanMove(h, ReceiveMove(fetch))
    ensures Simulates(DoMove(h, ReceiveMove(fetch)), a, cursor)
  {
    var p := h.client.position;
    FetchExists(h.sys.logs, p, fetch);
    FetchInSequence(p, fetch);
    RefsAreConsumable(p, fetch);
    InSequenceSame(p, cursor, Refs(p, fetch));
  }

  /** Going back to `p`. */
  lemma BackTo(s: Sys, a: Sys, cursor: map<Topic, nat>, c: Client, p: map<Topic, nat>) returns (steps: seq<Step>)
    requires SameButOrder(s, a) && OrderAt(a, cursor, c.committed)
    requires forall t :: At(c.committed, t) <= At(p, t) <= At(cursor, t)
    ensures CanRun(a, steps) && Simulates(Host(s, c.(position := p, loop := Waiting)), Run(a, steps), p)
  {
    forall t ensures t in ALL_TOPICS { EveryTopic(t); }
    steps := RewindIsARun(a, OrderService, p, ALL_TOPICS);
  }

  lemma FinishSimulates(h: Host, a: Sys, cursor: map<Topic, nat>, commits: bool) returns (steps: seq<Step>)
    requires Simulates(h, a, cursor) && CanMove(h, FinishMove(commits))
    ensures CanRun(a, steps) && Simulates(DoMove(h, FinishMove(commits)), Run(a, steps), cursor)
  {
    steps := [];
    if commits {
      forall t ensures t in ALL_TOPICS { EveryTopic(t); }
      steps := CommitIsARun(a, ALL_TOPICS);
    }
  }

  /** A transaction that Order commits is a step of the system. */
  lemma AcceptedSimulates(h: Host, a: Sys, cursor: map<Topic, nat>, key: Id)
    requires Simulates(h, a, cursor) && CanMove(h, HandleMove(key, NoFault))
    requires !HandleEvent(h.sys.order, Record(h), key).1.IsError()
    ensures var st := OrderStep(h.client.loop.todo[0].topic, key);
            && Enabled(a, st)
            && var r := HandleEvent(h.sys.order, Record(h), key).0;
               && SameButOrder(h.sys.(order := r, issued := Register(h.sys.issued, h.sys.order.outbox, r.outbox)),
                               Next(a, st))
               && OrderAt(Next(a, st), cursor[h.client.loop.todo[0].topic := h.client.loop.todo[0].offset + 1],
                          h.client.committed)
  {
    var t := h.client.loop.todo[0].topic;
    assert Offset(a.position, OrderService, t) == At(cursor, t);
    assert Log(a, t) == LogOf(h.sys.logs, t);
    assert Head(a, OrderService, t) == Record(h);
    var n := Offset(a.position, OrderService, t) + 1;
    OrderMoved(h.sys.position, a.position, t, n);
    var a' := Next(a, OrderStep(t, key));
    OffsetAfter(a.position, OrderService, t, n, a'.position);
    assert a'.committed == a.committed;
  }

  lemma TodoTail(logs: Logs, c: Client, cursor: map<Topic, nat>)
    requires c.loop.Working? && c.loop.todo != [] && InHand(logs, c, cursor)
    ensures InHand(logs, c.(loop := Working(c.loop.rewind, c.loop.todo[1..])),
                   cursor[c.loop.todo[0].topic := c.loop.todo[0].offset + 1])
  {
    var todo := c.loop.todo;
    assert forall i :: 0 <= i < |todo[1..]| ==> todo[1..][i] == todo[i + 1];
  }

  /** The transaction committed, but the handler was told that it failed. */
  lemma LostReplySimulates(h: Host, a: Sys, cursor: map<Topic, nat>, key: Id, s': Sys) returns (steps: seq<Step>)
    requires Simulates(h, a, cursor) && CanMove(h, HandleMove(key, NoFault))
    requires !HandleEvent(h.sys.order, Record(h), key).1.IsError()
    requires var r := HandleEvent(h.sys.order, Record(h), key).0;
             s' == h.sys.(order := r, issued := Register(h.sys.issued, h.sys.order.outbox, r.outbox))
    ensures CanRun(a, steps)
    ensures Simulates(Host(s', h.client.(position := h.client.loop.rewind, loop := Waiting)), Run(a, steps),
                      h.client.loop.rewind)
  {
    var c, st := h.client, OrderStep(h.client.loop.todo[0].topic, key);
    var cursor' := cursor[c.loop.todo[0].topic := c.loop.todo[0].offset + 1];
    AcceptedSimulates(h, a, cursor, key);
    TodoTail(h.sys.logs, c, cursor);
    var back := BackTo(s', Next(a, st), cursor', c, c.loop.rewind);
    RunThen(a, st, back);
    steps := [st] + back;
  }

  lemma HandleSimulates(h: Host, a: Sys, cursor: map<Topic, nat>, key: Id, fault: HandlerFault)
    returns (steps: seq<Step>, cursor': map<Topic, nat>)
    requires Simulates(h, a, cursor) && CanMove(h, HandleMove(key, fault))
    ensures CanRun(a, steps) && Simulates(DoMove(h, HandleMove(key, fault)), Run(a, steps), cursor')
  {
    var c, r := h.client, Attempt(h.sys.order, Record(h), key, fault);
    var s' := DoMove(h, HandleMove(key, fault)).sys;
    if !r.1.IsError() {
      var st := OrderStep(c.loop.todo[0].topic, key);
      AcceptedSimulates(h, a, cursor, key);
      TodoTail(h.sys.logs, c, cursor);
      RunOne(a, st);
      steps, cursor' := [st], cursor[c.loop.todo[0].topic := c.loop.todo[0].offset + 1];
    } else if r.0 == h.sys.order {
      steps := BackTo(s', a, cursor, c, c.loop.rewind);
      cursor' := c.loop.rewind;
    } else {
      steps := LostReplySimulates(h, a, cursor, key, s');
      cursor' := c.loop.rewind;
    }
  }

  lemma InHandStays(logs: Logs, logs': Logs, c: Client, cursor: map<Topic, nat>)
    requires InHand(logs, c, cursor) && LogsGrow(logs, logs')
    ensures InHand(logs', c, cursor)
  {
    if c.loop.Working? {
      forall i | 0 <= i < |c.loop.todo| ensures c.loop.todo[i].offset < |LogOf(logs', c.loop.todo[i].topic)| {
        assert LogOf(logs, c.loop.todo[i].topic) <= LogOf(logs', c.loop.todo[i].topic);
      }
    }
  }

  lemma OtherSimulates(h: Host, a: Sys, cursor: map<Topic, nat>, st: Step)
    requires Simulates(h, a, cursor) && CanMove(h, OtherMove(st))
    ensures Enabled(a, st) && Simulates(DoMove(h, OtherMove(st)), Next(a, st), cursor)
  {
    OtherSameButOrder(h.sys, a, st);
    StepGrowsLogs(h.sys, st);
    InHandStays(h.sys.logs, Next(h.sys, st).logs, h.client, cursor);
    OtherKeepsOrder(a, st);
  }

  lemma OtherKeepsOrder(a: Sys, st: Step)
    requires Enabled(a, st) && !MovesOrder(st)
    ensures forall t :: Offset(Next(a, st).position, OrderService, t) == Offset(a.position, OrderService, t)
                        && Offset(Next(a, st).committed, OrderService, t) == Offset(a.committed, OrderService, t)
  {
  }

  predicate MovesOffsets(st: Step) {
    st.CreatedStep? || st.ReservationFailedStep? || st.CancelledStep? || st.CommitStep? || st.RewindStep?
  }

  function WithOffsets(s: Sys, a: Sys): Sys {
    s.(position := a.position, committed := a.committed)
  }

  lemma OutboxOffsetFree(s: Sys, a: Sys, svc: Service, rows: seq<Row>)
    ensures Outbox(WithOffsets(s, a), svc) == Outbox(s, svc)
    ensures WithOutbox(WithOffsets(s, a), svc, rows) == WithOffsets(WithOutbox(s, svc, rows), a)
  {
  }

  lemma SendOffsetFree(s: Sys, a: Sys, svc: Service, row: nat)
    requires Enabled(s, SendStep(svc, row))
    ensures Enabled(WithOffsets(s, a), SendStep(svc, row))
    ensures Next(WithOffsets(s, a), SendStep(svc, row)) == WithOffsets(Next(s, SendStep(svc, row)), a)
  {
    OutboxOffsetFree(s, a, svc, []);
  }

  lemma FailOffsetFree(s: Sys, a: Sys, svc: Service, row: nat)
    requires Enabled(s, SendFailsStep(svc, row))
    ensures Enabled(WithOffsets(s, a), SendFailsStep(svc, row))
    ensures Next(WithOffsets(s, a), SendFailsStep(svc, row)) == WithOffsets(Next(s, SendFailsStep(svc, row)), a)
  {
    var rows := Outbox(s, svc);
    OutboxOffsetFree(s, a, svc, rows[row := rows[row].(attempts := rows[row].attempts + 1)]);
  }

  lemma MarkOffsetFree(s: Sys, a: Sys, svc: Service, row: nat)
    requires Enabled(s, MarkStep(svc, row))
    ensures Enabled(WithOffsets(s, a), MarkStep(svc, row))
    ensures Next(WithOffsets(s, a), MarkStep(svc, row)) == WithOffsets(Next(s, MarkStep(svc, row)), a)
  {
    var rows := Outbox(s, svc);
    OutboxOffsetFree(s, a, svc, rows[row := rows[row].(status := RowPublished)]);
  }

  lemma CallOffsetFree(s: Sys, a: Sys, st: Step)
    requires Enabled(s, st) && (st.CreateStep? || st.ExecuteStep? || st.DropStep?)
    ensures Enabled(WithOffsets(s, a), st) && Next(WithOffsets(s, a), st) == WithOffsets(Next(s, st), a)
  {
  }

  lemma OffsetFree(s: Sys, a: Sys, st: Step)
    requires !MovesOrder(st) && !MovesOffsets(st) && Enabled(s, st)
    ensures Enabled(WithOffsets(s, a), st) && Next(WithOffsets(s, a), st) == WithOffsets(Next(s, st), a)
  {
    match st {
      case SendStep(svc, row) => SendOffsetFree(s, a, svc, row);
      case SendFailsStep(svc, row) => FailOffsetFree(s, a, svc, row);
      case MarkStep(svc, row) => MarkOffsetFree(s, a, svc, row);
      case _ => CallOffsetFree(s, a, st);
    }
  }

  lemma OffsetsStay(s: Sys, st: Step)
    requires !MovesOrder(st) && !MovesOffsets(st) && Enabled(s, st)
    ensures Next(s, st).position == s.position && Next(s, st).committed == s.committed
  {
    if st.SendFailsStep? || st.MarkStep? {
      OutboxOffsetFree(s, s, st.svc, Outbox(Next(s, st), st.svc));
    }
  }

  lemma HandlersAgree(s: Sys, a: Sys, st: Step)
    requires SameButOrder(s, a) && Enabled(s, st) && (st.CreatedStep? || st.ReservationFailedStep? || st.CancelledStep?)
    ensures Enabled(a, st) && SameButOrder(Next(s, st), Next(a, st))
  {
    match st {
      case CreatedStep(_, _) => OtherAdvances(s, a, PaymentService, TopicOrderCreated);
      case ReservationFailedStep(_) => OtherAdvances(s, a, PaymentService, TopicReservationFailed);
      case CancelledStep(_) => OtherAdvances(s, a, InventoryService, TopicOrderCancelled);
    }
  }

  lemma OffsetStepsAgree(s: Sys, a: Sys, st: Step)
    requires SameButOrder(s, a) && Enabled(s, st) && !MovesOrder(st) && (st.CommitStep? || st.RewindStep?)
    ensures Enabled(a, st) && SameButOrder(Next(s, st), Next(a, st))
  {
    assert Offset(a.committed, st.svc, st.topic) == Offset(s.committed, st.svc, st.topic);
    assert Offset(a.position, st.svc, st.topic) == Offset(s.position, st.svc, st.topic);
    if st.CommitStep? {
      SameOffsetsUpdate(s.committed, a.committed, st.svc, st.topic, st.upTo);
    } else {
      SameOffsetsUpdate(s.position, a.position, st.svc, st.topic, st.to);
    }
  }

  /** Steps that leave Order's offsets alone do not depend on them. */
  lemma OtherSameButOrder(s: Sys, a: Sys, st: Step)
    requires SameButOrder(s, a) && !MovesOrder(st) && Enabled(s, st)
    ensures Enabled(a, st) && SameButOrder(Next(s, st), Next(a, st))
  {
    if !MovesOffsets(st) {
      assert a == WithOffsets(s, a);
      OffsetFree(s, a, st);
      OffsetsStay(s, st);
    } else if st.CommitStep? || st.RewindStep? {
      OffsetStepsAgree(s, a, st);
    } else {
      HandlersAgree(s, a, st);
    }
  }

  lemma OtherAdvances(s: Sys, a: Sys, svc: Service, t: Topic)
    requires SameButOrder(s, a) && svc != OrderService
    ensures SameOffsets(Advance(s, svc, t), Advance(a, svc, t))
            && Offset(a.position, svc, t) == Offset(s.position, svc, t)
  {
    SameOffsetsUpdate(s.position, a.position, svc, t, Offset(s.position, svc, t) + 1);
  }

  lemma MoveSimulates(h: Host, a: Sys, cursor: map<Topic, nat>, m: Move)
    returns (steps: seq<Step>, cursor': map<Topic, nat>)
    requires Simulates(h, a, cursor) && CanMove(h, m)
    ensures CanRun(a, steps) && Simulates(DoMove(h, m), Run(a, steps), cursor')
  {
    steps, cursor' := [], cursor;
    match m {
      case ReceiveMove(fetch) =>
        ReceiveSimulates(h, a, cursor, fetch);
      case HandleMove(key, fault) =>
        steps, cursor' := HandleSimulates(h, a, cursor, key, fault);
      case FinishMove(commits) =>
        steps := FinishSimulates(h, a, cursor, commits);
      case RestartMove =>
        steps := BackTo(h.sys, a, cursor, h.client, h.client.committed);
        cursor' := h.client.committed;
      case OtherMove(st) =>
        OtherSimulates(h, a, cursor, st);
        RunOne(a, st);
        steps := [st];
    }
  }

  lemma {:induction false} MovesSimulate(h: Host, a: Sys, cursor: map<Topic, nat>, moves: seq<Move>)
    returns (steps: seq<Step>, cursor': map<Topic, nat>)
    requires Simulates(h, a, cursor) && CanMoveAll(h, moves)
    ensures CanRun(a, steps) && Simulates(MoveAll(h, moves), Run(a, steps), cursor')
    decreases |moves|
  {
    steps, cursor' := [], cursor;
    if moves != [] {
      var now, mid := MoveSimulates(h, a, cursor, moves[0]);
      var rest, end := MovesSimulate(DoMove(h, moves[0]), Run(a, now), mid, moves[1..]);
      RunConcat(a, now, rest);
      steps, cursor' := now + rest, end;
    }
  }

  /**
   Order's loop with its fetches, handler calls, faults, rewinds, commits and restarts, interleaved at
   every point with any other step: it reaches the tables, logs and calls of a run of the system, and
   between batches also its offsets.
   */
  lemma LoopIsARun(s0: Sys, moves: seq<Move>) returns (steps: seq<Step>)
    requires Init(s0) && CanMoveAll(Host(s0, Client(map[], map[], Waiting)), moves)
    ensures CanRun(s0, steps)
    ensures var h := MoveAll(Host(s0, Client(map[], map[], Waiting)), moves);
            && SameButOrder(h.sys, Run(s0, steps))
            && (h.client.loop.Waiting? ==> OrderAt(Run(s0, steps), h.client.position, h.client.committed))
  {
    var h0 := Host(s0, Client(map[], map[], Waiting));
    var cursor;
    steps, cursor := MovesSimulate(h0, s0, map[], moves);
  }

  // ----- A turn of the loop is such a sequence of moves -----

  /** UUIDs not drawn before, no two alike. */
  ghost predicate FreshKeys(s: Sys, keys: nat -> Id, from: nat) {
    && (forall i: nat :: i >= from ==> keys(i) !in s.issued)
    && forall i: nat, j: nat :: i != j ==> keys(i) != keys(j)
  }

  lemma HandlingDrawsOne(h: Host, keys: nat -> Id, n: nat, fault: HandlerFault)
    requires CanMove(h, HandleMove(keys(n), fault)) && FreshKeys(h.sys, keys, n)
    ensures FreshKeys(DoMove(h, HandleMove(keys(n), fault)).sys, keys, n + 1)
  {
    if HandleEvent(h.sys.order, Record(h), keys(n)).1.IsFirstAcceptance() {
      AcceptedEffect(h.sys.order, Record(h), keys(n));
    }
  }

  /** Where a turn of the loop without interruption leaves a host that was waiting. */
  ghost predicate Polled(h: Host, fetch: seq<Fetched>, keys: nat -> Id, f: Failure, commits: bool, h': Host)
    requires ValidFetch(h.sys.logs, h.client.position, fetch)
  {
    var g := Poll(Group(h.sys.order, h.client.position, h.client.committed, {}), h.sys.logs, fetch, keys, f, commits);
    && h'.sys == h.sys.(order := g.db, issued := h'.sys.issued)
    && h'.client == Client(g.position, g.committed, Waiting)
  }

  /** A restart, at whatever point it comes, is the restart of the loop's specification. */
  lemma RestartIsAMove(h: Host)
    ensures var g := Group(h.sys.order, h.client.position, h.client.committed, {});
            var g', h' := TakeTurn(g, RestartTurn), DoMove(h, RestartMove);
            h'.sys == h.sys && h'.client == Client(g'.position, g'.committed, Waiting)
  {
  }

  lemma PolledWhen(h: Host, fetch: seq<Fetched>, keys: nat -> Id, f: Failure, commits: bool, n: nat, failed: bool,
                   h': Host)
    requires ValidFetch(h.sys.logs, h.client.position, fetch) && Exist(h.sys.logs, Refs(h.client.position, fetch))
    requires var ds := Deliveries(h.sys.logs, Refs(h.client.position, fetch), keys);
             Dispatching(h.sys.order, ds, f, n, failed, h'.sys.order) && (failed || n == |ds|)
    requires h'.sys == h.sys.(order := h'.sys.order, issued := h'.sys.issued)
    requires var p := Advanced(h.client.position, fetch);
             h'.client == if failed then Client(h.client.position, h.client.committed, Waiting)
                          else Client(p, if commits then p else h.client.committed, Waiting)
    ensures Polled(h, fetch, keys, f, commits, h')
  {
    DispatchingEnds(h.sys.order, Deliveries(h.sys.logs, Refs(h.client.position, fetch), keys), f, n, failed,
                    h'.sys.order);
  }

  /** `h'` has the first `n` records of the batch behind it. */
  ghost predicate Underway(h: Host, fetch: seq<Fetched>, keys: nat -> Id, f: Failure, n: nat, h': Host) {
    var refs := Refs(h.client.position, fetch);
    && Exist(h.sys.logs, refs) && n <= |refs| && FreshKeys(h'.sys, keys, n)
    && h'.sys == h.sys.(order := h'.sys.order, issued := h'.sys.issued)
    && Dispatching(h.sys.order, Deliveries(h.sys.logs, refs, keys), f, n, false, h'.sys.order)
    && h'.client == Client(Advanced(h.client.position, fetch), h.client.committed,
                           Working(h.client.position, refs[n..]))
  }

  lemma UnderwayStep(h: Host, fetch: seq<Fetched>, keys: nat -> Id, f: Failure, commits: bool, n: nat, h': Host)
    requires ValidFetch(h.sys.logs, h.client.position, fetch) && n < |Refs(h.client.position, fetch)|
    requires Underway(h, fetch, keys, f, n, h')
    ensures var m := HandleMove(keys(n), FaultAt(f, n));
            && CanMove(h', m)
            && if DoMove(h', m).client.loop.Waiting? then Polled(h, fetch, keys, f, commits, DoMove(h', m))
               else Underway(h, fetch, keys, f, n + 1, DoMove(h', m))
  {
    var refs := Refs(h.client.position, fetch);
    var ds := Deliveries(h.sys.logs, refs, keys);
    assert refs[n..][0] == refs[n] && refs[n..][1..] == refs[n + 1..];
    assert forall i :: 0 <= i < |refs[n..]| ==> refs[n..][i] == refs[n + i];
    var m := HandleMove(keys(n), FaultAt(f, n));
    assert Record(h') == ds[n].env;
    DispatchingStep(h.sys.order, ds, f, n, h'.sys.order);
    HandlingDrawsOne(h', keys, n, FaultAt(f, n));
    if DoMove(h', m).client.loop.Waiting? {
      PolledWhen(h, fetch, keys, f, commits, n, true, DoMove(h', m));
    }
  }

  lemma UnderwayEnds(h: Host, fetch: seq<Fetched>, keys: nat -> Id, f: Failure, commits: bool, h': Host)
    requires ValidFetch(h.sys.logs, h.client.position, fetch)
    requires Underway(h, fetch, keys, f, |Refs(h.client.position, fetch)|, h')
    ensures CanMoveAll(h', [FinishMove(commits)])
            && Polled(h, fetch, keys, f, commits, MoveAll(h', [FinishMove(commits)]))
  {
    var n := |Refs(h.client.position, fetch)|;
    PolledWhen(h, fetch, keys, f, commits, n, false, DoMove(h', FinishMove(commits)));
    assert [FinishMove(commits)][1..] == [];
  }

  lemma {:induction false} UnderwayIsMoves(h: Host, fetch: seq<Fetched>, keys: nat -> Id, f: Failure, commits: bool,
                                           n: nat, h': Host)
    returns (moves: seq<Move>)
    requires ValidFetch(h.sys.logs, h.client.position, fetch) && Underway(h, fetch, keys, f, n, h')
    ensures CanMoveAll(h', moves) && Polled(h, fetch, keys, f, commits, MoveAll(h', moves))
    decreases |Refs(h.client.position, fetch)| - n
  {
    if n == |Refs(h.client.position, fetch)| {
      UnderwayEnds(h, fetch, keys, f, commits, h');
      moves := [FinishMove(commits)];
    } else {
      var m := HandleMove(keys(n), FaultAt(f, n));
      UnderwayStep(h, fetch, keys, f, commits, n, h');
      var rest: seq<Move> := [];
      if DoMove(h', m).client.loop.Working? {
        rest := UnderwayIsMoves(h, fetch, keys, f, commits, n + 1, DoMove(h', m));
      }
      moves := [m] + rest;
      assert moves[1..] == rest;
    }
  }

  /**
   One turn of Order's loop, whether it fails for any reason, commits or fails to commit, is a sequence
   of moves of the loop. Interleave those moves with anything else and LoopIsARun still applies.
   */
  lemma PollIsMoves(h: Host, fetch: seq<Fetched>, keys: nat -> Id, f: Failure, commits: bool) returns (moves: seq<Move>)
    requires CanMove(h, ReceiveMove(fetch)) && FreshKeys(h.sys, keys, 0)
    ensures CanMoveAll(h, moves) && Polled(h, fetch, keys, f, commits, MoveAll(h, moves))
  {
    var refs := Refs(h.client.position, fetch);
    FetchExists(h.sys.logs, h.client.position, fetch);
    DispatchingStarts(h.sys.order, Deliveries(h.sys.logs, refs, keys), f);
    assert refs[0..] == refs;
    var rest := UnderwayIsMoves(h, fetch, keys, f, commits, 0, DoMove(h, ReceiveMove(fetch)));
    moves := [ReceiveMove(fetch)] + rest;
    assert moves[1..] == rest;
  }
}
