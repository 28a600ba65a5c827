/**
 The system with any number of relays per service, each act of a relay interleaved with anything else.
 Every such world is a run of the system, and each outbox in it lives the life described in RelayFleet.
 */
module FleetRefinement {
  import opened Messages
  import opened Orders
  import opened SagaSystem
  import opened SagaInvariant
  import opened SagaSafety
  import opened RelayFleet

  /** What the relays of one service have in hand, and the rows they have sent. */
  datatype Crew = Crew(sends: seq<nat>, held: map<nat, Batch>, queues: map<nat, seq<nat>>, lost: set<nat>)

  datatype World = World(sys: Sys, crews: map<Service, Crew>)

  datatype Move =
    | RelayMove(svc: Service, act: Act)
    | SystemMove(st: Step)

  function CrewOf(w: World, svc: Service): Crew {
    if svc in w.crews then w.crews[svc] else Crew([], map[], map[], {})
  }

  function FleetOf(w: World, svc: Service): Fleet {
    var c := CrewOf(w, svc);
    Fleet(Outbox(w.sys, svc), c.sends, c.held, c.queues, c.lost)
  }

  predicate IsRelayStep(st: Step) {
    st.SendStep? || st.SendFailsStep? || st.MarkStep?
  }

  predicate CanMove(w: World, m: Move) {
    match m
    case RelayMove(svc, act) => !act.InsertAct? && CanAct(FleetOf(w, svc), act)
    case SystemMove(st) => !IsRelayStep(st) && Enabled(w.sys, st)
  }

  /** A relay act changes the outbox and the crew of its service; a send or late delivery also logs its row. */
  function DoMove(w: World, m: Move): World
    requires CanMove(w, m)
  {
    match m
    case RelayMove(svc, act) =>
      var f := FleetOf(w, svc);
      var f' := Do(f, act);
      var sys := if AddsRecord(act) then Send(w.sys, f.rows[LoggedRow(f, act)].env) else w.sys;
      World(WithOutbox(sys, svc, f'.rows), w.crews[svc := Crew(f'.sends, f'.held, f'.queues, f'.lost)])
    case SystemMove(st) => w.(sys := Next(w.sys, st))
  }

  predicate CanMoveAll(w: World, moves: seq<Move>)
    decreases |moves|
  {
    moves == [] || (CanMove(w, moves[0]) && CanMoveAll(DoMove(w, moves[0]), moves[1..]))
  }

  function MoveAll(w: World, moves: seq<Move>): World
    requires CanMoveAll(w, moves)
    decreases |moves|
  {
    if moves == [] then w else MoveAll(DoMove(w, moves[0]), moves[1..])
  }

  // ----- A step of a service adds at most one row -----

  lemma OrderOutboxGrows(s: Sys, st: Step) returns (env: Option<Envelope>)
    requires Enabled(s, st) && !IsRelayStep(st)
    ensures Next(s, st).order.outbox == s.order.outbox + if env.Some? then [NewRow(env.value)] else []
  {
    env := None;
    if st.CreateStep? {
      env := Some(Next(s, st).order.outbox[|s.order.outbox|].env);
    } else if st.OrderStep? {
      var e := Head(s, OrderService, st.topic);
      if HandleEvent(s.order, e, st.key).1.IsFirstAcceptance() {
        AcceptedEffect(s.order, e, st.key);
        if |Next(s, st).order.outbox| > |s.order.outbox| {
          env := Some(CancelledEnvelope(st.key, e.saga));
        }
      }
    }
    assert s.order.outbox + [] == s.order.outbox;
  }

  lemma PaymentOutboxGrows(s: Sys, st: Step) returns (env: Option<Envelope>)
    requires Enabled(s, st) && !IsRelayStep(st)
    ensures Next(s, st).payment.outbox == s.payment.outbox + if env.Some? then [NewRow(env.value)] else []
  {
    env := None;
    if |Next(s, st).payment.outbox| > |s.payment.outbox| {
      env := Some(Next(s, st).payment.outbox[|s.payment.outbox|].env);
    }
    assert s.payment.outbox + [] == s.payment.outbox;
  }

  lemma InventoryOutboxGrows(s: Sys, st: Step) returns (env: Option<Envelope>)
    requires Enabled(s, st) && !IsRelayStep(st)
    ensures Next(s, st).inventory.outbox == s.inventory.outbox + if env.Some? then [NewRow(env.value)] else []
  {
    env := None;
    if |Next(s, st).inventory.outbox| > |s.inventory.outbox| {
      env := Some(Next(s, st).inventory.outbox[|s.inventory.outbox|].env);
    }
    assert s.inventory.outbox + [] == s.inventory.outbox;
  }

  lemma OutboxGrows(s: Sys, st: Step, svc: Service) returns (env: Option<Envelope>)
    requires Enabled(s, st) && !IsRelayStep(st)
    ensures Outbox(Next(s, st), svc) == Outbox(s, svc) + if env.Some? then [NewRow(env.value)] else []
  {
    match svc {
      case OrderService => env := OrderOutboxGrows(s, st);
      case PaymentService => env := PaymentOutboxGrows(s, st);
      case InventoryService => env := InventoryOutboxGrows(s, st);
    }
  }

  // ----- Each outbox lives the life of a fleet -----

  /** One move is at most one act on each outbox. */
  lemma MoveIsAnAct(w: World, m: Move, svc: Service) returns (acts: seq<Act>)
    requires CanMove(w, m)
    ensures |acts| <= 1
    ensures acts != [] ==> CanAct(FleetOf(w, svc), acts[0]) && (acts[0].InsertAct? || m == RelayMove(svc, acts[0]))
    ensures FleetOf(DoMove(w, m), svc) == if acts == [] then FleetOf(w, svc) else Do(FleetOf(w, svc), acts[0])
  {
    acts := [];
    match m {
      case RelayMove(c, act) =>
        if c == svc {
          acts := [act];
        }
      case SystemMove(st) =>
        var env := OutboxGrows(w.sys, st, svc);
        if env.Some? {
          acts := [InsertAct(env.value)];
        } else {
          assert Outbox(w.sys, svc) + [] == Outbox(w.sys, svc);
        }
    }
  }

  lemma {:induction false} WorldIsAFleet(f: Fleet, before: seq<Act>, w: World, moves: seq<Move>, svc: Service)
    returns (acts: seq<Act>)
    requires CanMoveAll(w, moves) && CanActAll(f, before) && After(f, before) == FleetOf(w, svc)
    ensures CanActAll(f, acts) && After(f, acts) == FleetOf(MoveAll(w, moves), svc)
    ensures forall a :: a in acts ==> a in before || a.InsertAct? || RelayMove(svc, a) in moves
    decreases |moves|
  {
    if moves == [] {
      acts := before;
    } else {
      var now := MoveIsAnAct(w, moves[0], svc);
      var next := before;
      if now != [] {
        AfterSnoc(f, before, now[0]);
        next := before + [now[0]];
      }
      acts := WorldIsAFleet(f, next, DoMove(w, moves[0]), moves[1..], svc);
    }
  }

  // ----- The world is a run of the system -----

  /** Every row that a relay has sent is in its topic's log. */
  ghost predicate SentIsLogged(w: World, svc: Service) {
    forall row :: row in CrewOf(w, svc).sends ==>
      row < |Outbox(w.sys, svc)| && Outbox(w.sys, svc)[row].env in Log(w.sys, Outbox(w.sys, svc)[row].env.topic)
  }

  ghost predicate WorldInv(w: World) {
    forall svc :: FleetInv(FleetOf(w, svc)) && SentIsLogged(w, svc)
  }

  lemma MoveGrowsLogs(w: World, m: Move)
    requires CanMove(w, m)
    ensures LogsGrow(w.sys.logs, DoMove(w, m).sys.logs)
  {
    match m {
      case RelayMove(svc, act) =>
        var f := FleetOf(w, svc);
        if AddsRecord(act) {
          SendGrowsLogs(w.sys, f.rows[LoggedRow(f, act)].env);
        }
      case SystemMove(st) => StepGrowsLogs(w.sys, st);
    }
  }

  lemma ActKeepsEnvelopes(f: Fleet, a: Act)
    requires CanAct(f, a)
    ensures |f.rows| <= |Do(f, a).rows| && forall i :: 0 <= i < |f.rows| ==> Do(f, a).rows[i].env == f.rows[i].env
    ensures forall row :: row in Do(f, a).sends ==> row in f.sends || (AddsRecord(a) && row == LoggedRow(f, a))
  {
  }

  lemma MoveKeepsSentLogged(w: World, m: Move, svc: Service)
    requires CanMove(w, m) && SentIsLogged(w, svc)
    ensures SentIsLogged(DoMove(w, m), svc)
  {
    var w' := DoMove(w, m);
    var acts := MoveIsAnAct(w, m, svc);
    MoveGrowsLogs(w, m);
    if acts != [] {
      ActKeepsEnvelopes(FleetOf(w, svc), acts[0]);
    }
    forall row | row in CrewOf(w', svc).sends
      ensures row < |Outbox(w'.sys, svc)|
              && Outbox(w'.sys, svc)[row].env in Log(w'.sys, Outbox(w'.sys, svc)[row].env.topic)
    {
      assert CrewOf(w', svc).sends == FleetOf(w', svc).sends && CrewOf(w, svc).sends == FleetOf(w, svc).sends;
      if row in CrewOf(w, svc).sends {
        var env := Outbox(w.sys, svc)[row].env;
        assert LogOf(w.sys.logs, env.topic) <= LogOf(w'.sys.logs, env.topic);
      } else {
        SentRowIsLogged(w, acts[0], svc);
      }
    }
  }

  lemma SentRowIsLogged(w: World, a: Act, svc: Service)
    requires CanMove(w, RelayMove(svc, a)) && AddsRecord(a)
    ensures var w', row := DoMove(w, RelayMove(svc, a)), LoggedRow(FleetOf(w, svc), a);
            && row < |Outbox(w'.sys, svc)|
            && Outbox(w'.sys, svc)[row].env in Log(w'.sys, Outbox(w'.sys, svc)[row].env.topic)
  {
    var f, row := FleetOf(w, svc), LoggedRow(FleetOf(w, svc), a);
    SendGrowsLogs(w.sys, f.rows[row].env);
    assert Log(DoMove(w, RelayMove(svc, a)).sys, f.rows[row].env.topic)
           == Log(Send(w.sys, f.rows[row].env), f.rows[row].env.topic);
  }

  /** Rows that services append, and nothing logged. */
  ghost predicate Grew(s: Sys, s': Sys) {
    && s'.logs == s.logs
    && forall svc :: Outbox(s', svc) == Outbox(s, svc)
                     || exists env :: Outbox(s', svc) == Outbox(s, svc) + [NewRow(env)]
  }

  lemma GrowthKeepsInv(w: World, s': Sys)
    requires WorldInv(w) && Grew(w.sys, s')
    ensures WorldInv(World(s', w.crews))
  {
    var w' := World(s', w.crews);
    forall svc ensures FleetInv(FleetOf(w', svc)) && SentIsLogged(w', svc) {
      assert FleetInv(FleetOf(w, svc)) && SentIsLogged(w, svc);
      if Outbox(s', svc) != Outbox(w.sys, svc) {
        var env :| Outbox(s', svc) == Outbox(w.sys, svc) + [NewRow(env)];
        ActKeepsInv(FleetOf(w, svc), InsertAct(env));
        assert FleetOf(w', svc) == Do(FleetOf(w, svc), InsertAct(env));
      } else {
        assert FleetOf(w', svc) == FleetOf(w, svc);
      }
    }
  }

  lemma MoveKeepsInv(w: World, m: Move)
    requires WorldInv(w) && CanMove(w, m)
    ensures WorldInv(DoMove(w, m))
  {
    forall svc ensures FleetInv(FleetOf(DoMove(w, m), svc)) && SentIsLogged(DoMove(w, m), svc) {
      var f := FleetOf(w, svc);
      assert FleetInv(f) && SentIsLogged(w, svc);
      MoveKeepsSentLogged(w, m, svc);
      var acts := MoveIsAnAct(w, m, svc);
      if acts != [] {
        ActKeepsInv(f, acts[0]);
      }
    }
  }

  lemma MarkIsEnabled(w: World, svc: Service, relay: nat)
    requires WorldInv(w) && CanAct(FleetOf(w, svc), MarkAct(relay))
    ensures Enabled(w.sys, MarkStep(svc, FleetOf(w, svc).held[relay].todo[0]))
  {
    var f := FleetOf(w, svc);
    var row := f.held[relay].todo[0];
    assert FleetInv(f) && SentIsLogged(w, svc);
    assert InFlight(f, row);
    assert row in f.sends;
  }

  lemma RelayActIsAStep(w: World, svc: Service, act: Act) returns (steps: seq<Step>)
    requires WorldInv(w) && CanMove(w, RelayMove(svc, act))
    ensures |steps| <= 1 && (steps != [] ==> Enabled(w.sys, steps[0]) && IsRelayStep(steps[0]))
    ensures DoMove(w, RelayMove(svc, act)).sys == if steps == [] then w.sys else Next(w.sys, steps[0])
  {
    var f := FleetOf(w, svc);
    assert FleetInv(f);
    steps := [];
    if AddsRecord(act) {
      steps := [SendStep(svc, LoggedRow(f, act))];
    } else if act.MarkAct? {
      MarkIsEnabled(w, svc, act.relay);
      steps := [MarkStep(svc, f.held[act.relay].todo[0])];
    } else if act.FailAct? && act.counted {
      steps := [SendFailsStep(svc, f.held[act.relay].todo[0])];
    } else {
      assert Do(f, act).rows == f.rows;
    }
  }

  /** One move is at most one step of the system. */
  lemma MoveIsAStep(w: World, m: Move) returns (steps: seq<Step>)
    requires WorldInv(w) && CanMove(w, m)
    ensures |steps| <= 1 && (steps != [] ==> Enabled(w.sys, steps[0]))
    ensures DoMove(w, m).sys == if steps == [] then w.sys else Next(w.sys, steps[0])
  {
    match m {
      case SystemMove(st) => steps := [st];
      case RelayMove(svc, act) => steps := RelayActIsAStep(w, svc, act);
    }
  }

  /**
   Any number of relays on each outbox, with every act interleaved with other relays, with service
   transactions, consumers, restarts and reserve calls: still a run of the system.
   */
  lemma {:induction false} WorldIsARun(w: World, moves: seq<Move>) returns (steps: seq<Step>)
    requires WorldInv(w) && CanMoveAll(w, moves)
    ensures CanRun(w.sys, steps) && Run(w.sys, steps) == MoveAll(w, moves).sys
    decreases |moves|
  {
    steps := [];
    if moves != [] {
      var now := MoveIsAStep(w, moves[0]);
      MoveKeepsInv(w, moves[0]);
      var rest := WorldIsARun(DoMove(w, moves[0]), moves[1..]);
      if now == [] {
        steps := rest;
      } else {
        assert ([now[0]] + rest)[1..] == rest;
        steps := [now[0]] + rest;
      }
    }
  }

  // ----- Results about relays, in every world -----

  predicate Begins(w: World) {
    Init(w.sys) && w.crews == map[]
  }

  lemma BeginsInv(w: World)
    requires Begins(w)
    ensures WorldInv(w) && forall svc :: FleetOf(w, svc) == EMPTY
  {
    forall svc ensures FleetOf(w, svc) == EMPTY {}
  }

  /** The joint invariant, and with it every safety result, holds in every world. */
  lemma WorldIsSafe(w: World, moves: seq<Move>)
    requires Begins(w) && CanMoveAll(w, moves)
    ensures Inv(MoveAll(w, moves).sys)
  {
    BeginsInv(w);
    var steps := WorldIsARun(w, moves);
    ReachableInv(w.sys, steps);
  }

  /** In every world, a row is logged again exactly if it is marked, in flight at another relay, or lost its mark. */
  lemma SecondDispatchInTheWorld(w: World, moves: seq<Move>, svc: Service, a: Act)
    requires Begins(w) && CanMoveAll(w, moves) && CanAct(FleetOf(MoveAll(w, moves), svc), a) && AddsRecord(a)
    ensures var f := FleetOf(MoveAll(w, moves), svc);
            var row := LoggedRow(f, a);
            row in f.sends <==> IsPublished(f, row) || row in f.lost || InFlightElse(f, a.relay, row)
  {
    BeginsInv(w);
    var acts := WorldIsAFleet(EMPTY, [], w, moves, svc);
    SecondDispatchIsExact(acts, a);
  }

  /** With one relay on the outbox of `svc`, its log has the shape of LogShape in every world. */
  lemma LogShapeInTheWorld(w: World, moves: seq<Move>, svc: Service, relay: nat) returns (p: nat)
    requires Begins(w) && CanMoveAll(w, moves)
    requires forall a :: RelayMove(svc, a) in moves ==> OnlyRelay(a, relay)
    ensures var f := FleetOf(MoveAll(w, moves), svc);
            && Shape(f, p)
            && (forall i :: 0 <= i < p ==> i in f.sends)
            && forall i :: i in f.sends ==> i <= p
  {
    BeginsInv(w);
    var acts := WorldIsAFleet(EMPTY, [], w, moves, svc);
    forall i | 0 <= i < |acts| ensures OnlyRelay(acts[i], relay) {
      assert acts[i] in acts;
    }
    p := LogShape(acts, relay);
  }

  // ----- Two relays log one envelope twice, the second time after its mark -----

  /** Both relays of Order have fetched the row of the only order. */
  ghost predicate BothHold(w: World, env: Envelope) {
    && Outbox(w.sys, OrderService) == [NewRow(env)] && Log(w.sys, env.topic) == []
    && CrewOf(w, OrderService) == Crew([], map[0 := Batch([0], false), 1 := Batch([0], false)], map[], {})
  }

  lemma BothFetchIt(w: World, env: Envelope) returns (w': World)
    requires Outbox(w.sys, OrderService) == [NewRow(env)] && Log(w.sys, env.topic) == [] && w.crews == map[]
    ensures var fetches := [RelayMove(OrderService, FetchAct(0, 1, {})), RelayMove(OrderService, FetchAct(1, 1, {}))];
            CanMoveAll(w, fetches) && w' == MoveAll(w, fetches) && BothHold(w', env)
  {
    var m0, m1 := RelayMove(OrderService, FetchAct(0, 1, {})), RelayMove(OrderService, FetchAct(1, 1, {}));
    var rows := [NewRow(env)];
    assert Unlocked(rows, {}, 1) == [];
    assert FetchUnlocked(rows, 1, {}) == [0];
    var w1 := DoMove(w, m0);
    assert Outbox(w1.sys, OrderService) == rows && Log(w1.sys, env.topic) == [];
    assert CrewOf(w1, OrderService) == Crew([], map[0 := Batch([0], false)], map[], {});
    w' := DoMove(w1, m1);
    assert Log(w'.sys, env.topic) == [];
    assert [m0, m1][1..] == [m1] && [m1][1..] == [];
    assert MoveAll(w1, [m1]) == w';
  }

  lemma SentMarkedSent(w: World, env: Envelope)
    requires BothHold(w, env)
    ensures var marked := [RelayMove(OrderService, SendAct(1)), RelayMove(OrderService, MarkAct(1))];
            && CanMoveAll(w, marked)
            && var w' := MoveAll(w, marked);
               && |Outbox(w'.sys, OrderService)| == 1 && Outbox(w'.sys, OrderService)[0].status == RowPublished
               && CanMove(w', RelayMove(OrderService, SendAct(0)))
               && Log(DoMove(w', RelayMove(OrderService, SendAct(0))).sys, env.topic) == [env, env]
  {
    var send, mark := RelayMove(OrderService, SendAct(1)), RelayMove(OrderService, MarkAct(1));
    var w1 := DoMove(w, send);
    assert Outbox(w1.sys, OrderService) == [NewRow(env)] && Log(w1.sys, env.topic) == [env];
    assert CrewOf(w1, OrderService) == Crew([0], map[0 := Batch([0], false), 1 := Batch([0], true)], map[], {});
    var w2 := DoMove(w1, mark);
    assert Log(w2.sys, env.topic) == [env] && CrewOf(w2, OrderService).held[0] == Batch([0], false);
    assert Outbox(w2.sys, OrderService)[0].env == env;
    assert [send, mark][1..] == [mark] && [mark][1..] == [];
    assert MoveAll(w1, [mark]) == w2;
  }

  lemma {:induction false} MoveConcat(w: World, a: seq<Move>, b: seq<Move>)
    requires CanMoveAll(w, a) && CanMoveAll(MoveAll(w, a), b)
    ensures CanMoveAll(w, a + b) && MoveAll(w, a + b) == MoveAll(MoveAll(w, a), b)
    decreases |a|
  {
    if a == [] {
      assert a + b == b;
    } else {
      assert (a + b)[1..] == a[1..] + b;
      MoveConcat(DoMove(w, a[0]), a[1..], b);
    }
  }

  /**
   SKIP LOCKED does not avoid double dispatch: from any initial state there is a world, without a fault
   anywhere, in which a relay logs the envelope of an order a second time, after the row was marked.
   */
  lemma DoubleDispatchHappens(s0: Sys) returns (moves: seq<Move>, env: Envelope)
    requires Init(s0)
    ensures CanMoveAll(World(s0, map[]), moves)
    ensures var w := MoveAll(World(s0, map[]), moves);
            && |Outbox(w.sys, OrderService)| == 1 && Outbox(w.sys, OrderService)[0].status == RowPublished
            && CanMove(w, RelayMove(OrderService, SendAct(0)))
            && Log(DoMove(w, RelayMove(OrderService, SendAct(0))).sys, env.topic) == [env, env]
  {
    var w := World(s0, map[]);
    var create := SystemMove(CreateStep(1, "SKU-1", 2, 10.0, 100));
    env := Envelope(100, 1, TopicOrderCreated, OrderCreatedData("SKU-1", 2, 10.0));
    var w1 := DoMove(w, create);
    assert Outbox(w1.sys, OrderService) == [NewRow(env)] && Log(w1.sys, env.topic) == [];
    assert [create][1..] == [];
    assert MoveAll(w, [create]) == w1;
    var w2 := BothFetchIt(w1, env);
    var fetches := [RelayMove(OrderService, FetchAct(0, 1, {})), RelayMove(OrderService, FetchAct(1, 1, {}))];
    MoveConcat(w, [create], fetches);
    SentMarkedSent(w2, env);
    var marked := [RelayMove(OrderService, SendAct(1)), RelayMove(OrderService, MarkAct(1))];
    MoveConcat(w, [create] + fetches, marked);
    moves := ([create] + fetches) + marked;
  }
}
