/**
 Everything at once: any number of relays per service, Order's loop, Payment's and Inventory's loops, clients and
 reserve calls, each acting in its own small moves, interleaved in any order.
 */
module WholeSystem {
  import opened Messages
  import opened OrderDomain
  import opened Orders
  import opened Inventory
  import opened SagaSystem
  import opened SagaView
  import opened SagaInvariant
  import opened SagaSafety
  import opened SagaOutcome
  import opened SagaProgress
  import opened SagaReports
  import opened Sums
  import opened PollingRefinement
  import R = RelayFleet
  import F = FleetRefinement
  import L = LoopRefinement

  /** `handled` is the record that a polling loop has handled and not yet tried to commit, by its topic. */
  datatype Whole = Whole(sys: Sys, crews: map<Service, F.Crew>, client: L.Client, handled: map<Service, Topic>)

  datatype Move =
    | RelayMove(svc: Service, act: R.Act)
    | OrderMove(m: L.Move)
    | PollMove(svc: Service, topic: Topic, forceFailure: bool, key: Id)
    | SettleMove(svc: Service, commits: bool)
    | RestartMove(svc: Service)
    | OutsideMove(st: Step)

  predicate Polls(svc: Service) {
    svc == PaymentService || svc == InventoryService
  }

  function WorldOf(w: Whole): F.World {
    F.World(w.sys, w.crews)
  }

  function HostOf(w: Whole): L.Host {
    L.Host(w.sys, w.client)
  }

  predicate CanMove(w: Whole, m: Move) {
    match m
    case RelayMove(svc, act) => F.CanMove(WorldOf(w), F.RelayMove(svc, act))
    case OrderMove(m) => !m.OtherMove? && L.CanMove(HostOf(w), m)
    case PollMove(svc, t, _, key) => Polls(svc) && svc !in w.handled && HasNext(w.sys, svc, t) && key !in w.sys.issued
    case SettleMove(svc, _) => Polls(svc) && svc in w.handled
    case RestartMove(svc) => Polls(svc)
    case OutsideMove(st) => (st.CreateStep? || st.ExecuteStep? || st.DropStep?) && Enabled(w.sys, st)
  }

  /** The positions of `svc` on the topics `ts` go back to its committed offsets. */
  function Rewound(s: Sys, svc: Service, ts: seq<Topic>): Sys
    decreases |ts|
  {
    if ts == [] then s
    else Rewound(s.(position := s.position[(svc, ts[0]) := Committed(s, svc, ts[0])]), svc, ts[1..])
  }

  function DoMove(w: Whole, m: Move): Whole
    requires CanMove(w, m)
  {
    match m
    case RelayMove(svc, act) =>
      var w' := F.DoMove(WorldOf(w), F.RelayMove(svc, act));
      w.(sys := w'.sys, crews := w'.crews)
    case OrderMove(m) =>
      var h := L.DoMove(HostOf(w), m);
      w.(sys := h.sys, client := h.client)
    case PollMove(svc, t, forceFailure, key) =>
      HandlerAdvances(w.sys, svc, t, forceFailure, key);
      w.(sys := Next(w.sys, HandlerStep(t, forceFailure, key)), handled := w.handled[svc := t])
    case SettleMove(svc, commits) =>
      var t := w.handled[svc];
      w.(sys := if commits then w.sys.(committed := w.sys.committed[(svc, t) := Position(w.sys, svc, t)]) else w.sys,
         handled := w.handled - {svc})
    case RestartMove(svc) => w.(sys := Rewound(w.sys, svc, L.ALL_TOPICS), handled := w.handled - {svc})
    case OutsideMove(st) => w.(sys := Next(w.sys, st))
  }

  predicate CanMoveAll(w: Whole, moves: seq<Move>)
    decreases |moves|
  {
    moves == [] || (CanMove(w, moves[0]) && CanMoveAll(DoMove(w, moves[0]), moves[1..]))
  }

  function MoveAll(w: Whole, moves: seq<Move>): Whole
    requires CanMoveAll(w, moves)
    decreases |moves|
  {
    if moves == [] then w else MoveAll(DoMove(w, moves[0]), moves[1..])
  }

  function Start(s0: Sys): Whole {
    Whole(s0, map[], L.Client(map[], map[], L.Waiting), map[])
  }

  // ----- Each move is moves of a host -----

  /** The polling loops have not committed past where they are. */
  ghost predicate PollersOk(s: Sys) {
    forall svc, t :: svc != OrderService ==> Committed(s, svc, t) <= Position(s, svc, t)
  }

  lemma OneHostMove(h: L.Host, m: L.Move)
    requires L.CanMove(h, m)
    ensures L.CanMoveAll(h, [m]) && L.MoveAll(h, [m]) == L.DoMove(h, m)
  {
    assert [m][1..] == [];
  }

  lemma {:induction false} RewoundIsHostMoves(h: L.Host, svc: Service, ts: seq<Topic>) returns (ms: seq<L.Move>)
    requires svc != OrderService && PollersOk(h.sys)
    ensures L.CanMoveAll(h, ms) && L.MoveAll(h, ms) == h.(sys := Rewound(h.sys, svc, ts))
    decreases |ts|
  {
    ms := [];
    if ts != [] {
      var st := RewindStep(svc, ts[0], Committed(h.sys, svc, ts[0]));
      var h1 := L.DoMove(h, L.OtherMove(st));
      OffsetAfter(h.sys.position, svc, ts[0], Committed(h.sys, svc, ts[0]), h1.sys.position);
      forall c, t | c != OrderService ensures Committed(h1.sys, c, t) <= Position(h1.sys, c, t) {
        assert Committed(h.sys, c, t) <= Position(h.sys, c, t);
      }
      var rest := RewoundIsHostMoves(h1, svc, ts[1..]);
      ms := [L.OtherMove(st)] + rest;
      assert ms[1..] == rest;
    }
  }

  lemma RelayIsHostMoves(w: Whole, svc: Service, act: R.Act) returns (ms: seq<L.Move>)
    requires F.WorldInv(WorldOf(w)) && CanMove(w, RelayMove(svc, act))
    ensures L.CanMoveAll(HostOf(w), ms) && L.MoveAll(HostOf(w), ms) == HostOf(DoMove(w, RelayMove(svc, act)))
  {
    var steps := F.RelayActIsAStep(WorldOf(w), svc, act);
    ms := [];
    if steps != [] {
      ms := [L.OtherMove(steps[0])];
      OneHostMove(HostOf(w), L.OtherMove(steps[0]));
    }
  }

  lemma SettleIsHostMoves(w: Whole, svc: Service, commits: bool) returns (ms: seq<L.Move>)
    requires PollersOk(w.sys) && CanMove(w, SettleMove(svc, commits))
    ensures L.CanMoveAll(HostOf(w), ms) && L.MoveAll(HostOf(w), ms) == HostOf(DoMove(w, SettleMove(svc, commits)))
  {
    ms := [];
    if commits {
      var t := w.handled[svc];
      assert Committed(w.sys, svc, t) <= Position(w.sys, svc, t);
      ms := [L.OtherMove(CommitStep(svc, t, Position(w.sys, svc, t)))];
      OneHostMove(HostOf(w), ms[0]);
    }
  }

  lemma MoveIsHostMoves(w: Whole, m: Move) returns (ms: seq<L.Move>)
    requires F.WorldInv(WorldOf(w)) && PollersOk(w.sys) && CanMove(w, m)
    ensures L.CanMoveAll(HostOf(w), ms) && L.MoveAll(HostOf(w), ms) == HostOf(DoMove(w, m))
  {
    match m {
      case RelayMove(svc, act) =>
        ms := RelayIsHostMoves(w, svc, act);
      case OrderMove(m) =>
        ms := [m];
        OneHostMove(HostOf(w), m);
      case PollMove(svc, t, forceFailure, key) =>
        HandlerAdvances(w.sys, svc, t, forceFailure, key);
        ms := [L.OtherMove(HandlerStep(t, forceFailure, key))];
        OneHostMove(HostOf(w), ms[0]);
      case SettleMove(svc, commits) =>
        ms := SettleIsHostMoves(w, svc, commits);
      case RestartMove(svc) =>
        ms := RewoundIsHostMoves(HostOf(w), svc, L.ALL_TOPICS);
      case OutsideMove(st) =>
        ms := [L.OtherMove(st)];
        OneHostMove(HostOf(w), ms[0]);
    }
  }

  // ----- The crews stay consistent -----

  lemma StepGrew(s: Sys, st: Step)
    requires Enabled(s, st) && !F.IsRelayStep(st)
    ensures F.Grew(s, Next(s, st))
  {
    OnlySendsLog(s, st);
    forall svc ensures Outbox(Next(s, st), svc) == Outbox(s, svc)
                       || exists env :: Outbox(Next(s, st), svc) == Outbox(s, svc) + [NewRow(env)]
    {
      var env := F.OutboxGrows(s, st, svc);
      assert Outbox(s, svc) + [] == Outbox(s, svc);
    }
  }

  lemma OrderGrew(h: L.Host, m: L.Move)
    requires L.CanMove(h, m) && !m.OtherMove?
    ensures F.Grew(h.sys, L.DoMove(h, m).sys)
  {
    var s' := L.DoMove(h, m).sys;
    if m.HandleMove? && s'.order != h.sys.order {
      var e := L.Record(h);
      AcceptedEffect(h.sys.order, e, m.key);
      assert h.sys.order.outbox + [] == h.sys.order.outbox;
    }
    forall svc ensures Outbox(s', svc) == Outbox(h.sys, svc)
                       || exists env :: Outbox(s', svc) == Outbox(h.sys, svc) + [NewRow(env)]
    {
      assert svc != OrderService ==> Outbox(s', svc) == Outbox(h.sys, svc);
    }
  }

  lemma {:induction false} RewoundKeeps(s: Sys, svc: Service, ts: seq<Topic>)
    ensures Rewound(s, svc, ts) == s.(position := Rewound(s, svc, ts).position)
    ensures forall c, t :: Offset(Rewound(s, svc, ts).position, c, t)
                           == if c == svc && t in ts then Committed(s, svc, t) else Offset(s.position, c, t)
    decreases |ts|
  {
    if ts != [] {
      var s1 := s.(position := s.position[(svc, ts[0]) := Committed(s, svc, ts[0])]);
      OffsetAfter(s.position, svc, ts[0], Committed(s, svc, ts[0]), s1.position);
      RewoundKeeps(s1, svc, ts[1..]);
    }
  }

  /** Nothing but a relay logs records or marks rows. */
  lemma MoveGrew(w: Whole, m: Move)
    requires CanMove(w, m) && !m.RelayMove?
    ensures F.Grew(w.sys, DoMove(w, m).sys)
  {
    match m {
      case OrderMove(m) =>
        OrderGrew(HostOf(w), m);
      case PollMove(svc, t, forceFailure, key) =>
        HandlerAdvances(w.sys, svc, t, forceFailure, key);
        StepGrew(w.sys, HandlerStep(t, forceFailure, key));
      case RestartMove(svc) =>
        RewoundKeeps(w.sys, svc, L.ALL_TOPICS);
      case OutsideMove(st) =>
        StepGrew(w.sys, st);
      case SettleMove(_, _) =>
    }
  }

  lemma MoveKeepsWorld(w: Whole, m: Move)
    requires F.WorldInv(WorldOf(w)) && CanMove(w, m)
    ensures F.WorldInv(WorldOf(DoMove(w, m)))
  {
    if m.RelayMove? {
      F.MoveKeepsInv(WorldOf(w), F.RelayMove(m.svc, m.act));
    } else {
      MoveGrew(w, m);
      F.GrowthKeepsInv(WorldOf(w), DoMove(w, m).sys);
    }
  }

  // ----- A run of the system -----

  lemma SimulatedPollersOk(w: Whole, a: Sys, cursor: map<Topic, nat>)
    requires L.Simulates(HostOf(w), a, cursor) && OffsetsOk(a)
    ensures PollersOk(w.sys)
  {
    forall svc, t | svc != OrderService ensures Committed(w.sys, svc, t) <= Position(w.sys, svc, t) {
      assert Committed(a, svc, t) <= Position(a, svc, t);
      assert Offset(a.position, svc, t) == Offset(w.sys.position, svc, t);
      assert Offset(a.committed, svc, t) == Offset(w.sys.committed, svc, t);
    }
  }

  lemma {:induction false} MovesSimulate(w: Whole, a: Sys, cursor: map<Topic, nat>, moves: seq<Move>)
    returns (steps: seq<Step>, cursor': map<Topic, nat>)
    requires L.Simulates(HostOf(w), a, cursor) && Inv(a) && F.WorldInv(WorldOf(w)) && CanMoveAll(w, moves)
    ensures CanRun(a, steps) && L.Simulates(HostOf(MoveAll(w, moves)), Run(a, steps), cursor')
    ensures F.WorldInv(WorldOf(MoveAll(w, moves)))
    decreases |moves|
  {
    steps, cursor' := [], cursor;
    if moves != [] {
      SimulatedPollersOk(w, a, cursor);
      var ms := MoveIsHostMoves(w, moves[0]);
      var now, mid := L.MovesSimulate(HostOf(w), a, cursor, ms);
      RunKeeps(a, now);
      MoveKeepsWorld(w, moves[0]);
      var rest, end := MovesSimulate(DoMove(w, moves[0]), Run(a, now), mid, moves[1..]);
      RunConcat(a, now, rest);
      steps, cursor' := now + rest, end;
    }
  }

  lemma StartSimulates(s0: Sys)
    requires Init(s0)
    ensures L.Simulates(HostOf(Start(s0)), s0, map[]) && F.WorldInv(WorldOf(Start(s0))) && Inv(s0)
  {
    InitInv(s0);
    F.BeginsInv(WorldOf(Start(s0)));
  }

  /**
   However the moves of all relays, all three loops, clients and reserve calls are interleaved, the tables, logs,
   calls and the offsets of Payment and Inventory are those of a run of the system; between batches so are Order's.
   */
  lemma WholeIsARun(s0: Sys, moves: seq<Move>) returns (steps: seq<Step>)
    requires Init(s0) && CanMoveAll(Start(s0), moves)
    ensures CanRun(s0, steps)
    ensures var w := MoveAll(Start(s0), moves);
            && L.SameButOrder(w.sys, Run(s0, steps))
            && (w.client.loop.Waiting? ==> L.OrderAt(Run(s0, steps), w.client.position, w.client.committed))
  {
    StartSimulates(s0);
    var cursor;
    steps, cursor := MovesSimulate(Start(s0), s0, map[], moves);
  }

  /** So what holds of every saga and of the stock in every run holds at every point of every interleaving. */
  lemma WholeIsSafe(s0: Sys, moves: seq<Move>, id: Id)
    requires Init(s0) && CanMoveAll(Start(s0), moves)
    ensures var s := MoveAll(Start(s0), moves).sys;
            && ViewOk(ViewOf(s, id), id) && StockInv(s)
            && (id in s.order.orders && s.order.orders[id].status == Confirmed ==> PaidAndHeld(s, id))
  {
    var s := MoveAll(Start(s0), moves).sys;
    var steps := WholeIsARun(s0, moves);
    var a := Run(s0, steps);
    ReachableInv(s0, steps);
    assert ViewOk(ViewOf(a, id), id) && ViewOf(a, id) == ViewOf(s, id);
    ConfirmedIsPaidAndHeld(s0, steps, id);
  }

  lemma OwedInBoth(s: Sys, a: Sys, e: Envelope)
    requires L.SameButOrder(s, a) && Owed(a, PaymentService, e)
    ensures Owed(s, PaymentService, e)
  {
    assert Outbox(a, Producer(e.topic)) == Outbox(s, Producer(e.topic)) && Log(a, e.topic) == Log(s, e.topic);
    assert Position(a, PaymentService, e.topic) == Position(s, PaymentService, e.topic);
  }

  /** Nor is a refund ever swallowed. */
  lemma WholeRefundsAreOwed(s0: Sys, moves: seq<Move>, id: Id)
    requires Init(s0) && CanMoveAll(Start(s0), moves)
    ensures RefundOwedOrDone(MoveAll(Start(s0), moves).sys, id)
  {
    var s := MoveAll(Start(s0), moves).sys;
    var steps := WholeIsARun(s0, moves);
    RefundIsNeverSwallowed(s0, steps, id);
    forall e | Owed(Run(s0, steps), PaymentService, e) ensures Owed(s, PaymentService, e) {
      OwedInBoth(s, Run(s0, steps), e);
    }
  }

  /** Nor is a sku ever oversold. */
  lemma WholeNeverOversells(s0: Sys, moves: seq<Move>, sku: Sku)
    requires Init(s0) && CanMoveAll(Start(s0), moves)
    ensures Total(ConfirmedQuantities(MoveAll(Start(s0), moves).sys.order.orders, sku)) <= Available(s0.inventory, sku)
  {
    var steps := WholeIsARun(s0, moves);
    NeverOversold(s0, steps, sku);
  }

  /** And every row of every outbox says what the tables say. */
  lemma WholeTellsTheTruth(s0: Sys, moves: seq<Move>, svc: Service, i: nat)
    requires Init(s0) && CanMoveAll(Start(s0), moves)
    requires i < |Outbox(MoveAll(Start(s0), moves).sys, svc)|
    ensures var s := MoveAll(Start(s0), moves).sys; Reports(s, Outbox(s, svc)[i].env)
  {
    var s := MoveAll(Start(s0), moves).sys;
    var steps := WholeIsARun(s0, moves);
    assert Outbox(Run(s0, steps), svc) == Outbox(s, svc);
    EveryRowIsTrue(s0, steps, svc, i);
  }

  // ----- The polling loops take turns, as in PollingConsumer -----

  /** The turns of the loop of `svc` that a move ends; a restart also ends that of a record in hand, uncommitted. */
  function TurnsOf(w: Whole, m: Move, svc: Service): seq<P.Turn>
    requires CanMove(w, m)
  {
    if !Concerns(m, svc) then []
    else match m
      case SettleMove(_, commits) => [if commits then P.Handled(w.handled[svc]) else P.Uncommitted(w.handled[svc])]
      case RestartMove(_) => if svc in w.handled then [P.Uncommitted(w.handled[svc]), P.Restart] else [P.Restart]
      case _ => []
  }

  function AllTurns(w: Whole, moves: seq<Move>, svc: Service): seq<P.Turn>
    requires CanMoveAll(w, moves)
    decreases |moves|
  {
    if moves == [] then [] else TurnsOf(w, moves[0], svc) + AllTurns(DoMove(w, moves[0]), moves[1..], svc)
  }

  /** `svc` is where `r` is, one uncommitted record further while it has one in hand. */
  ghost predicate Explains(w: Whole, svc: Service, r: P.Reader) {
    Reads(w.sys, svc, if svc in w.handled then P.Take(r, P.Uncommitted(w.handled[svc])) else r)
  }

  /** Moves of others leave the offsets of `svc` alone. */
  predicate Concerns(m: Move, svc: Service) {
    (m.PollMove? || m.SettleMove? || m.RestartMove?) && m.svc == svc
  }

  ghost predicate SameReading(s: Sys, s': Sys, svc: Service) {
    forall t :: Offset(s'.position, svc, t) == Offset(s.position, svc, t)
                && Offset(s'.committed, svc, t) == Offset(s.committed, svc, t)
  }

  lemma OtherPollsElsewhere(w: Whole, m: Move, svc: Service)
    requires CanMove(w, m) && (m.PollMove? || m.SettleMove? || m.RestartMove?) && m.svc != svc
    ensures SameReading(w.sys, DoMove(w, m).sys, svc)
  {
    var s' := DoMove(w, m).sys;
    match m {
      case PollMove(c, t, forceFailure, key) =>
        HandlerAdvances(w.sys, c, t, forceFailure, key);
        OffsetAfter(w.sys.position, c, t, Position(w.sys, c, t) + 1, s'.position);
      case SettleMove(c, commits) =>
        if commits {
          OffsetAfter(w.sys.committed, c, w.handled[c], Position(w.sys, c, w.handled[c]), s'.committed);
        }
      case RestartMove(c) =>
        RewoundKeeps(w.sys, c, L.ALL_TOPICS);
    }
  }

  /** Neither relays nor clients, nor Order's loop, touch the offsets in the system. */
  lemma OffsetsUntouched(w: Whole, m: Move)
    requires CanMove(w, m) && (m.RelayMove? || m.OrderMove? || m.OutsideMove?)
    ensures DoMove(w, m).sys.position == w.sys.position && DoMove(w, m).sys.committed == w.sys.committed
    ensures DoMove(w, m).handled == w.handled
  {
    match m {
      case RelayMove(c, act) =>
        var f := F.FleetOf(WorldOf(w), c);
        var s := if R.AddsRecord(act) then Send(w.sys, f.rows[R.LoggedRow(f, act)].env) else w.sys;
        L.OutboxOffsetFree(s, s, c, R.Do(f, act).rows);
      case OutsideMove(st) =>
        L.OffsetsStay(w.sys, st);
      case OrderMove(_) =>
    }
  }

  lemma OthersLeaveOffsets(w: Whole, m: Move, svc: Service)
    requires CanMove(w, m) && Polls(svc) && !Concerns(m, svc)
    ensures SameReading(w.sys, DoMove(w, m).sys, svc)
    ensures svc in DoMove(w, m).handled <==> svc in w.handled
    ensures svc in w.handled ==> DoMove(w, m).handled[svc] == w.handled[svc]
  {
    if m.RelayMove? || m.OrderMove? || m.OutsideMove? {
      OffsetsUntouched(w, m);
    } else {
      OtherPollsElsewhere(w, m, svc);
    }
  }

  lemma PollExplained(w: Whole, m: Move, r: P.Reader)
    requires CanMove(w, m) && m.PollMove? && Explains(w, m.svc, r)
    ensures Explains(DoMove(w, m), m.svc, r)
  {
    HandlerAdvances(w.sys, m.svc, m.topic, m.forceFailure, m.key);
    OffsetAfter(w.sys.position, m.svc, m.topic, Position(w.sys, m.svc, m.topic) + 1, DoMove(w, m).sys.position);
  }

  lemma SettleExplained(w: Whole, m: Move, r: P.Reader)
    requires CanMove(w, m) && m.SettleMove? && Explains(w, m.svc, r)
    ensures Explains(DoMove(w, m), m.svc, P.Take(r, TurnsOf(w, m, m.svc)[0]))
  {
    if m.commits {
      var t := w.handled[m.svc];
      OffsetAfter(w.sys.committed, m.svc, t, Position(w.sys, m.svc, t), DoMove(w, m).sys.committed);
    }
  }

  lemma RewoundReads(s: Sys, svc: Service, ts: seq<Topic>, r: P.Reader)
    requires Reads(s, svc, r) && forall t :: t in ts
    ensures Reads(Rewound(s, svc, ts), svc, P.Take(r, P.Restart))
  {
    var s' := Rewound(s, svc, ts);
    RewoundKeeps(s, svc, ts);
    forall t
      ensures Offset(s'.position, svc, t) == P.At(r.committed, t)
      ensures Offset(s'.committed, svc, t) == P.At(r.committed, t)
    {
      assert t in ts && Offset(s.committed, svc, t) == P.At(r.committed, t);
    }
  }

  lemma RestartExplained(w: Whole, m: Move, r: P.Reader)
    requires CanMove(w, m) && m.RestartMove? && Explains(w, m.svc, r)
    ensures Explains(DoMove(w, m), m.svc, P.Resume(r, TurnsOf(w, m, m.svc)))
  {
    var now := if m.svc in w.handled then P.Take(r, P.Uncommitted(w.handled[m.svc])) else r;
    forall t ensures t in L.ALL_TOPICS { L.EveryTopic(t); }
    RewoundReads(w.sys, m.svc, L.ALL_TOPICS, now);
    ResumeOneOrTwo(r, TurnsOf(w, m, m.svc));
  }

  lemma ResumeOneOrTwo(r: P.Reader, turns: seq<P.Turn>)
    ensures |turns| == 1 ==> P.Resume(r, turns) == P.Take(r, turns[0])
    ensures |turns| == 2 ==> P.Resume(r, turns) == P.Take(P.Take(r, turns[0]), turns[1])
  {
    if |turns| == 2 {
      var rest := turns[1..];
      assert P.Resume(P.Take(r, turns[0]), rest) == P.Take(P.Take(r, turns[0]), rest[0]);
    }
  }

  lemma MoveExplained(w: Whole, m: Move, svc: Service, r: P.Reader)
    requires CanMove(w, m) && Polls(svc) && Explains(w, svc, r)
    ensures Explains(DoMove(w, m), svc, P.Resume(r, TurnsOf(w, m, svc)))
  {
    if !Concerns(m, svc) {
      OthersLeaveOffsets(w, m, svc);
    } else if m.PollMove? {
      PollExplained(w, m, r);
    } else if m.SettleMove? {
      SettleExplained(w, m, r);
      ResumeOneOrTwo(r, TurnsOf(w, m, svc));
    } else {
      RestartExplained(w, m, r);
    }
  }

  lemma {:induction false} MovesExplained(w: Whole, moves: seq<Move>, svc: Service, r: P.Reader)
    requires CanMoveAll(w, moves) && Polls(svc) && Explains(w, svc, r)
    ensures Explains(MoveAll(w, moves), svc, P.Resume(r, AllTurns(w, moves, svc)))
    decreases |moves|
  {
    if moves != [] {
      var now := TurnsOf(w, moves[0], svc);
      MoveExplained(w, moves[0], svc, r);
      MovesExplained(DoMove(w, moves[0]), moves[1..], svc, P.Resume(r, now));
      P.ResumeConcat(r, now, AllTurns(DoMove(w, moves[0]), moves[1..], svc));
    }
  }

  lemma {:induction false} NoneRaised(w: Whole, moves: seq<Move>, svc: Service)
    requires CanMoveAll(w, moves)
    ensures forall i :: 0 <= i < |AllTurns(w, moves, svc)| ==> !AllTurns(w, moves, svc)[i].Raised?
    decreases |moves|
  {
    if moves != [] {
      NoneRaised(DoMove(w, moves[0]), moves[1..], svc);
    }
  }

  /**
   In every interleaving, the offsets of Payment and of Inventory are those of the turns that their moves make up,
   and those turns have handled every record below a committed offset.
   */
  lemma PollersTakeTurns(s0: Sys, moves: seq<Move>, svc: Service)
    requires Init(s0) && CanMoveAll(Start(s0), moves) && Polls(svc)
    ensures var w, turns := MoveAll(Start(s0), moves), AllTurns(Start(s0), moves, svc);
            && Explains(w, svc, P.After(turns)) && (forall i :: 0 <= i < |turns| ==> !turns[i].Raised?)
            && forall t, n: nat :: n < Committed(w.sys, svc, t) ==> (t, n) in P.After(turns).handled
  {
    var w, turns := MoveAll(Start(s0), moves), AllTurns(Start(s0), moves, svc);
    MovesExplained(Start(s0), moves, svc, P.START);
    P.AfterIsResume(turns);
    NoneRaised(Start(s0), moves, svc);
    forall t, n: nat | n < Committed(w.sys, svc, t) ensures (t, n) in P.After(turns).handled {
      assert Offset(w.sys.committed, svc, t) == P.At(P.After(turns).committed, t);
      P.NoExceptionNoSkip(turns, t, n);
    }
  }

  /** And the tables of the service show it, also for the record in hand: nothing below its position is unhandled. */
  lemma PollersSkipNothing(s0: Sys, moves: seq<Move>, svc: Service, t: Topic, n: nat)
    requires Init(s0) && CanMoveAll(Start(s0), moves) && Polls(svc) && Consumes(svc, t)
    requires n < Position(MoveAll(Start(s0), moves).sys, svc, t)
    ensures var s := MoveAll(Start(s0), moves).sys;
            n < |Log(s, t)| && HandledBy(s, svc, Log(s, t)[n])
  {
    var s := MoveAll(Start(s0), moves).sys;
    var steps := WholeIsARun(s0, moves);
    var a := Run(s0, steps);
    ReachableInv(s0, steps);
    assert Committed(a, svc, t) <= Position(a, svc, t) <= |Log(a, t)|;
    assert Position(a, svc, t) == Position(s, svc, t) && Log(a, t) == Log(s, t);
    assert HandledBy(a, svc, Log(a, t)[n]);
  }
}
