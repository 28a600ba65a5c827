/** What Order's consumer loop guarantees over any sequence of polls, rewinds and restarts. */
module OrderRetries {
  import opened Messages
  import opened OrderDomain
  import opened Orders
  import opened OrderConsumer

  datatype Turn =
    | PollTurn(logs: Logs, fetch: seq<Fetched>, keys: nat -> Id, failure: Failure, commits: bool)
    | RestartTurn

  predicate CanTurn(g: Group, turn: Turn) {
    turn.PollTurn? ==> ValidFetch(turn.logs, g.position, turn.fetch)
  }

  function TakeTurn(g: Group, turn: Turn): Group
    requires CanTurn(g, turn)
  {
    match turn
    case PollTurn(logs, fetch, keys, failure, commits) => Poll(g, logs, fetch, keys, failure, commits)
    case RestartTurn => g.(position := g.committed)
  }

  predicate CanTakeAll(g: Group, turns: seq<Turn>)
    decreases |turns|
  {
    turns == [] || (CanTurn(g, turns[0]) && CanTakeAll(TakeTurn(g, turns[0]), turns[1..]))
  }

  function TakeAll(g: Group, turns: seq<Turn>): Group
    requires CanTakeAll(g, turns)
    decreases |turns|
  {
    if turns == [] then g else TakeAll(TakeTurn(g, turns[0]), turns[1..])
  }

  // ----- Commits never run ahead of the handlers -----

  /** Everything below a position, and so below a committed offset, has been accepted. */
  ghost predicate OffsetsCovered(g: Group) {
    && (forall t :: At(g.committed, t) <= At(g.position, t))
    && forall t, n :: 0 <= n < At(g.position, t) ==> Ref(t, n) in g.accepted
  }

  /** Advancing over a fetch passes only records of that fetch. */
  lemma {:induction false} AdvancedPasses(position: map<Topic, nat>, fetch: seq<Fetched>, t: Topic)
    requires forall i, j :: 0 <= i < j < |fetch| ==> fetch[i].topic != fetch[j].topic
    ensures At(position, t) <= At(Advanced(position, fetch), t)
    ensures forall n :: At(position, t) <= n < At(Advanced(position, fetch), t) ==> Ref(t, n) in Refs(position, fetch)
    decreases |fetch|
  {
    if fetch != [] {
      var f, p := fetch[0], position[fetch[0].topic := At(position, fetch[0].topic) + fetch[0].count];
      AdvancedPasses(p, fetch[1..], t);
      RefsElsewhere(position, p, fetch[1..]);
      if t == f.topic {
        AdvancedElsewhere(p, fetch[1..], t);
        forall n | At(position, t) <= n < At(Advanced(position, fetch), t) ensures Ref(t, n) in Refs(position, fetch) {
          var refs := PartitionRefs(t, At(position, t), f.count);
          assert refs[n - At(position, t)] == Ref(t, n);
        }
      }
    }
  }

  lemma {:induction false} RefsElsewhere(position: map<Topic, nat>, position': map<Topic, nat>, fetch: seq<Fetched>)
    requires forall i :: 0 <= i < |fetch| ==> At(position', fetch[i].topic) == At(position, fetch[i].topic)
    ensures Refs(position', fetch) == Refs(position, fetch)
  {
    if fetch != [] {
      RefsElsewhere(position, position', fetch[1..]);
    }
  }

  lemma {:induction false} AdvancedElsewhere(position: map<Topic, nat>, fetch: seq<Fetched>, t: Topic)
    requires forall i :: 0 <= i < |fetch| ==> fetch[i].topic != t
    ensures At(Advanced(position, fetch), t) == At(position, t)
    decreases |fetch|
  {
    if fetch != [] {
      AdvancedElsewhere(position[fetch[0].topic := At(position, fetch[0].topic) + fetch[0].count], fetch[1..], t);
    }
  }

  lemma TurnKeepsCovered(g: Group, turn: Turn)
    requires OffsetsCovered(g) && CanTurn(g, turn)
    ensures OffsetsCovered(TakeTurn(g, turn))
  {
    if turn.PollTurn? {
      FetchExists(turn.logs, g.position, turn.fetch);
      var refs := Refs(g.position, turn.fetch);
      assert refs[..|refs|] == refs;
      forall t { AdvancedPasses(g.position, turn.fetch, t); }
    }
  }

  lemma {:induction false} CoveredIsKept(g: Group, turns: seq<Turn>)
    requires OffsetsCovered(g) && CanTakeAll(g, turns)
    ensures OffsetsCovered(TakeAll(g, turns))
    decreases |turns|
  {
    if turns != [] {
      TurnKeepsCovered(g, turns[0]);
      CoveredIsKept(TakeTurn(g, turns[0]), turns[1..]);
    }
  }

  /** No record below a committed offset is without a successful handler call, whatever happened. */
  lemma NeverCommitsPast(db: OrderDb, turns: seq<Turn>, t: Topic, n: nat)
    requires CanTakeAll(Group(db, map[], map[], {}), turns)
    ensures var g := TakeAll(Group(db, map[], map[], {}), turns);
            n < At(g.committed, t) ==> Ref(t, n) in g.accepted
  {
    CoveredIsKept(Group(db, map[], map[], {}), turns);
  }

  /** A restart changes no table and no commit, and everything that is not committed is fetched again. */
  lemma RestartRedelivers(g: Group, t: Topic, count: nat, n: nat)
    requires At(g.committed, t) <= n < At(g.committed, t) + count
    ensures var g' := TakeTurn(g, RestartTurn);
            && g' == g.(position := g'.position)
            && Ref(t, n) in Refs(g'.position, [Fetched(t, count)])
  {
    var refs := PartitionRefs(t, At(g.committed, t), count);
    assert refs[n - At(g.committed, t)] == Ref(t, n);
    assert [Fetched(t, count)][1..] == [];
    assert refs + [] == refs;
  }

  // ----- Effects of records before a failing one are kept, and nothing else is -----

  lemma {:induction false} DeliverConcat(db: OrderDb, a: seq<Delivery>, b: seq<Delivery>)
    ensures Deliver(db, a + b) == Deliver(Deliver(db, a), b)
    decreases |a|
  {
    if a == [] {
      assert a + b == b;
    } else {
      assert (a + b)[1..] == a[1..] + b;
      DeliverConcat(HandleEvent(db, a[0].env, a[0].emitKey).0, a[1..], b);
    }
  }

  /** The deliveries whose transactions commit in the turns, in order: of each poll, the records it dispatched. */
  function Dispatched(g: Group, turns: seq<Turn>): seq<Delivery>
    requires CanTakeAll(g, turns)
    decreases |turns|
  {
    if turns == [] then []
    else DispatchedNow(g, turns[0]) + Dispatched(TakeTurn(g, turns[0]), turns[1..])
  }

  function DispatchedNow(g: Group, turn: Turn): seq<Delivery>
    requires CanTurn(g, turn)
  {
    match turn
    case RestartTurn => []
    case PollTurn(logs, fetch, keys, failure, _) =>
      FetchExists(logs, g.position, fetch);
      var ds := Deliveries(logs, Refs(g.position, fetch), keys);
      ds[..CommittedCount(g.db, ds, failure)]
  }

  /**
   Any run of the loop leaves the store as the records it dispatched do, delivered one after the other,
   and hence as delivering each of these messages only at its first acceptance does.
   */
  lemma {:induction false} LoopIsRedelivery(g: Group, turns: seq<Turn>)
    requires CanTakeAll(g, turns)
    ensures var ds := Dispatched(g, turns);
            TakeAll(g, turns).db == Deliver(g.db, ds) == Deliver(g.db, FirstAcceptances(g.db, ds))
    decreases |turns|
  {
    if turns != [] {
      var g' := TakeTurn(g, turns[0]);
      LoopIsRedelivery(g', turns[1..]);
      DeliverConcat(g.db, DispatchedNow(g, turns[0]), Dispatched(g', turns[1..]));
    }
    RedeliveryEquivalence(g.db, Dispatched(g, turns));
  }

  // ----- Retrying in the same order -----

  predicate Absorbed(cur: Status, t: Trigger) {
    !TakesEffect(cur, t) && !Apply(cur, t).ErrPrematureEvent?
  }

  lemma AbsorbedStep(cur: Status, t: Trigger, u: Trigger)
    requires Absorbed(cur, t)
    ensures Absorbed(After(cur, u), t) && After(cur, t) == cur
  {
  }

  /** Handling this message again would change no order and emit nothing. */
  predicate Harmless(db: OrderDb, e: Envelope) {
    || TopicTrigger(e.topic).None? || e.key in db.markers || e.saga !in db.orders
    || Absorbed(db.orders[e.saga].status, TopicTrigger(e.topic).value)
  }

  predicate Parks(db: OrderDb, e: Envelope) {
    HandleEvent(db, e, 0).1 == Premature
  }

  lemma HarmlessStays(db: OrderDb, d: Delivery, e: Envelope)
    requires Harmless(db, e)
    ensures Harmless(HandleEvent(db, d.env, d.emitKey).0, e)
  {
    if HandleEvent(db, d.env, d.emitKey).1.IsFirstAcceptance() {
      AcceptedEffect(db, d.env, d.emitKey);
      if e.saga == d.env.saga && TopicTrigger(e.topic).Some?
         && Absorbed(db.orders[e.saga].status, TopicTrigger(e.topic).value)
      {
        AbsorbedStep(db.orders[e.saga].status, TopicTrigger(e.topic).value, TopicTrigger(d.env.topic).value);
      }
    }
  }

  lemma {:induction false} HarmlessThrough(db: OrderDb, ds: seq<Delivery>, e: Envelope)
    requires Harmless(db, e)
    ensures Harmless(Deliver(db, ds), e)
    decreases |ds|
  {
    if ds != [] {
      HarmlessStays(db, ds[0], e);
      HarmlessThrough(HandleEvent(db, ds[0].env, ds[0].emitKey).0, ds[1..], e);
    }
  }

  lemma HarmlessChangesNothing(db: OrderDb, d: Delivery)
    requires Harmless(db, d.env)
    ensures var r := HandleEvent(db, d.env, d.emitKey);
            && !r.1.IsError() && r.0.orders == db.orders && r.0.outbox == db.outbox
            && (r.0.markers == db.markers || (r.1.IsFirstAcceptance() && r.0.markers == db.markers + {d.env.key}))
  {
  }

  /** A message that was handled once is harmless from then on. */
  lemma HandledIsHarmless(db: OrderDb, d: Delivery)
    requires !HandleEvent(db, d.env, d.emitKey).1.IsError()
    ensures Harmless(HandleEvent(db, d.env, d.emitKey).0, d.env)
  {
  }

  /** Dispatching stops at a record that is parked, with everything before it harmless. */
  predicate Stuck(db: OrderDb, ds: seq<Delivery>, n: nat) {
    n < |ds| && (forall i :: 0 <= i < n ==> Harmless(db, ds[i].env)) && Parks(db, ds[n].env)
  }

  /** No record before record `n` uses its key for something else. */
  predicate OwnKey(ds: seq<Delivery>, n: nat)
    requires n < |ds|
  {
    forall i :: 0 <= i < n && ds[i].env.key == ds[n].env.key ==>
      ds[i].env.saga == ds[n].env.saga && ds[i].env.topic == ds[n].env.topic
  }

  /** Wherever in a batch the first error is, the batch leaves the store stuck there. */
  lemma {:induction false} StoppedBatchIsStuck(db: OrderDb, ds: seq<Delivery>)
    requires AcceptedCount(db, ds) < |ds|
    ensures var n := AcceptedCount(db, ds); Stuck(Deliver(db, ds[..n]), ds, n)
    decreases |ds|
  {
    var r, n := HandleEvent(db, ds[0].env, ds[0].emitKey), AcceptedCount(db, ds);
    if r.1.IsError() {
      assert ds[..0] == [];
    } else {
      StoppedBatchIsStuck(r.0, ds[1..]);
      HandledIsHarmless(db, ds[0]);
      assert ds[..n][1..] == ds[1..][..n - 1];
      HarmlessThrough(r.0, ds[1..][..n - 1], ds[0].env);
      var now := Deliver(db, ds[..n]);
      forall i | 0 <= i < n ensures Harmless(now, ds[i].env) {
        assert i > 0 ==> ds[i] == ds[1..][i - 1];
      }
    }
  }

  lemma ParksStays(db: OrderDb, d: Delivery, e: Envelope)
    requires Harmless(db, d.env) && Parks(db, e)
    requires d.env.key == e.key ==> d.env.saga == e.saga && d.env.topic == e.topic
    ensures Parks(HandleEvent(db, d.env, d.emitKey).0, e)
  {
    HarmlessChangesNothing(db, d);
  }

  lemma StuckTail(db: OrderDb, ds: seq<Delivery>, n: nat)
    requires Stuck(db, ds, n) && OwnKey(ds, n) && n > 0
    ensures OwnKey(ds[1..], n - 1) && Stuck(HandleEvent(db, ds[0].env, ds[0].emitKey).0, ds[1..], n - 1)
  {
    var rest := ds[1..];
    assert forall i :: 0 <= i < |rest| ==> rest[i] == ds[i + 1];
    ParksStays(db, ds[0], ds[n].env);
    forall i | 0 <= i < n - 1 ensures Harmless(HandleEvent(db, ds[0].env, ds[0].emitKey).0, rest[i].env) {
      HarmlessStays(db, ds[0], ds[i + 1].env);
    }
  }

  /** From a stuck store the same messages get exactly as far again, and change nothing on the way. */
  lemma {:induction false} StuckAgain(db: OrderDb, ds: seq<Delivery>, n: nat, k: nat)
    requires Stuck(db, ds, n) && OwnKey(ds, n) && k <= n
    ensures AcceptedCount(db, ds) == n
    ensures var db' := Deliver(db, ds[..k]);
            db'.orders == db.orders && db'.outbox == db.outbox && Parks(db', ds[n].env)
    decreases |ds|
  {
    if n == 0 {
      assert ds[..k] == [];
    } else {
      StuckTail(db, ds, n);
      HarmlessChangesNothing(db, ds[0]);
      StuckAgain(HandleEvent(db, ds[0].env, ds[0].emitKey).0, ds[1..], n - 1, if k == 0 then 0 else k - 1);
      if k > 0 {
        assert ds[..k][1..] == ds[1..][..k - 1];
      }
    }
  }

  /** The envelopes `es` first, then anything; with whatever UUIDs for emissions. */
  predicate BeginsWith(ds: seq<Delivery>, es: seq<Envelope>) {
    |es| <= |ds| && forall i :: 0 <= i < |es| ==> ds[i].env == es[i]
  }

  function Envelopes(ds: seq<Delivery>): seq<Envelope> {
    seq(|ds|, i requires 0 <= i < |ds| => ds[i].env)
  }

  /**
   A batch that stopped at record `n` because it came too early, and a later one that agrees with it up to
   that record: the later one stops at record `n` again, no order changes and nothing is emitted.
   */
  lemma RetryIsStuck(db: OrderDb, ds: seq<Delivery>, ds': seq<Delivery>)
    requires AcceptedCount(db, ds) < |ds| && OwnKey(ds, AcceptedCount(db, ds))
    requires BeginsWith(ds', Envelopes(ds[..AcceptedCount(db, ds) + 1]))
    ensures var n := AcceptedCount(db, ds);
            var db1 := Deliver(db, ds[..n]);
            && AcceptedCount(db1, ds') == n
            && Deliver(db1, ds'[..n]).orders == db1.orders && Deliver(db1, ds'[..n]).outbox == db1.outbox
  {
    var n := AcceptedCount(db, ds);
    StoppedBatchIsStuck(db, ds);
    assert forall i :: 0 <= i <= n ==> ds'[i].env == Envelopes(ds[..n + 1])[i] == ds[i].env;
    StuckAgain(Deliver(db, ds[..n]), ds', n, n);
  }

  /** The store parks the last of the envelopes `es`, and the ones before it are harmless. */
  predicate StuckOn(db: OrderDb, es: seq<Envelope>) {
    && es != []
    && (forall i :: 0 <= i < |es| - 1 ==> Harmless(db, es[i]))
    && Parks(db, es[|es| - 1])
    && forall i :: 0 <= i < |es| && es[i].key == es[|es| - 1].key ==>
         es[i].saga == es[|es| - 1].saga && es[i].topic == es[|es| - 1].topic
  }

  /** A poll, under any failure, whose dispatch begins with `es`. */
  predicate PollsAgain(g: Group, turn: Turn, es: seq<Envelope>) {
    turn.PollTurn? && ValidFetch(turn.logs, g.position, turn.fetch) &&
    (FetchExists(turn.logs, g.position, turn.fetch);
     BeginsWith(Deliveries(turn.logs, Refs(g.position, turn.fetch), turn.keys), es))
  }

  ghost predicate SameOrders(g: Group, g': Group) {
    && g'.db.orders == g.db.orders && g'.db.outbox == g.db.outbox
    && g'.position == g.position && g'.committed == g.committed
  }

  lemma RepollStaysStuck(g: Group, es: seq<Envelope>, turn: Turn)
    requires StuckOn(g.db, es) && PollsAgain(g, turn, es)
    ensures SameOrders(g, TakeTurn(g, turn)) && StuckOn(TakeTurn(g, turn).db, es)
  {
    FetchExists(turn.logs, g.position, turn.fetch);
    var ds, n := Deliveries(turn.logs, Refs(g.position, turn.fetch), turn.keys), |es| - 1;
    StuckAgain(g.db, ds, n, n);
    var k := CommittedCount(g.db, ds, turn.failure);
    StuckAgain(g.db, ds, n, k);
    forall i | 0 <= i < n ensures Harmless(Deliver(g.db, ds[..k]), es[i]) {
      HarmlessThrough(g.db, ds[..k], es[i]);
    }
  }

  lemma {:induction false} RepollsStayStuck(g: Group, es: seq<Envelope>, turns: seq<Turn>)
    requires StuckOn(g.db, es) && forall i :: 0 <= i < |turns| ==> PollsAgain(g, turns[i], es)
    ensures CanTakeAll(g, turns) && SameOrders(g, TakeAll(g, turns))
    decreases |turns|
  {
    if turns != [] {
      RepollStaysStuck(g, es, turns[0]);
      var g' := TakeTurn(g, turns[0]);
      forall i | 0 <= i < |turns[1..]| ensures PollsAgain(g', turns[1..][i], es) {
        assert PollsAgain(g, turns[i + 1], es);
      }
      RepollsStayStuck(g', es, turns[1..]);
    }
  }

  /** What a poll dispatches, up to and including the first record that is not accepted. */
  function UpToTheError(g: Group, logs: Logs, fetch: seq<Fetched>, keys: nat -> Id): seq<Envelope>
    requires ValidFetch(logs, g.position, fetch)
  {
    FetchExists(logs, g.position, fetch);
    var ds := Deliveries(logs, Refs(g.position, fetch), keys);
    var n := AcceptedCount(g.db, ds);
    if n == |ds| then [] else Envelopes(ds[..n + 1])
  }

  /** A poll that failed with a premature event leaves the store stuck on what it dispatched. */
  lemma FailedPollIsStuck(g: Group, logs: Logs, fetch: seq<Fetched>, keys: nat -> Id, commits: bool)
    requires ValidFetch(logs, g.position, fetch) && Exist(logs, Refs(g.position, fetch))
    requires var ds := Deliveries(logs, Refs(g.position, fetch), keys);
             AcceptedCount(g.db, ds) < |ds| && OwnKey(ds, AcceptedCount(g.db, ds))
    ensures var g' := Poll(g, logs, fetch, keys, Fine, commits);
            && g'.position == g.position && g'.committed == g.committed
            && StuckOn(g'.db, UpToTheError(g, logs, fetch, keys))
  {
    var ds := Deliveries(logs, Refs(g.position, fetch), keys);
    StoppedBatchIsStuck(g.db, ds);
  }

  /**
   Once a batch has stopped at a record that came too early, polls that dispatch the same records up to
   that one get nowhere, however many there are, whatever they fetch after it and whatever else fails: no
   order changes, nothing is emitted, no offset moves.
   */
  lemma RetryingInTheSameOrderIsStuck(
    g: Group, logs: Logs, fetch: seq<Fetched>, keys: nat -> Id, commits: bool, turns: seq<Turn>)
    requires ValidFetch(logs, g.position, fetch) && Exist(logs, Refs(g.position, fetch))
    requires var ds := Deliveries(logs, Refs(g.position, fetch), keys);
             AcceptedCount(g.db, ds) < |ds| && OwnKey(ds, AcceptedCount(g.db, ds))
    requires forall i :: 0 <= i < |turns| ==> PollsAgain(g, turns[i], UpToTheError(g, logs, fetch, keys))
    ensures var g1 := Poll(g, logs, fetch, keys, Fine, commits);
            && g1.position == g.position && g1.committed == g.committed
            && CanTakeAll(g1, turns) && SameOrders(g1, TakeAll(g1, turns))
  {
    var g1, es := Poll(g, logs, fetch, keys, Fine, commits), UpToTheError(g, logs, fetch, keys);
    FailedPollIsStuck(g, logs, fetch, keys, commits);
    forall i | 0 <= i < |turns| ensures PollsAgain(g1, turns[i], es) {
      assert PollsAgain(g, turns[i], es);
    }
    RepollsStayStuck(g1, es, turns);
  }

  /** A turn that polls a single record which is not parked handles it and commits it. */
  lemma OneRecordTurn(g: Group, logs: Logs, t: Topic, keys: nat -> Id)
    requires At(g.position, t) < |LogOf(logs, t)|
    requires !HandleEvent(g.db, LogOf(logs, t)[At(g.position, t)], keys(0)).1.IsError()
    ensures ValidFetch(logs, g.position, [Fetched(t, 1)])
    ensures var g' := Poll(g, logs, [Fetched(t, 1)], keys, Fine, true);
            && g'.db == HandleEvent(g.db, LogOf(logs, t)[At(g.position, t)], keys(0)).0
            && g'.position == g'.committed == g.position[t := At(g.position, t) + 1]
            && g'.accepted == g.accepted + {Ref(t, At(g.position, t))}
  {
    var fetch, r := [Fetched(t, 1)], Ref(t, At(g.position, t));
    assert fetch[1..] == [];
    assert Refs(g.position, fetch) == [r];
    assert Advanced(g.position, fetch) == g.position[t := At(g.position, t) + 1];
    FetchExists(logs, g.position, fetch);
    var ds := Deliveries(logs, [r], keys);
    assert ds[1..] == [] && ds[..1] == ds && [r][..1] == [r];
    assert AcceptedCount(g.db, ds) == 1;
    assert Deliver(g.db, ds) == HandleEvent(g.db, ds[0].env, keys(0)).0;
  }

  // ----- When a batch is accepted whole -----

  /** No trigger of the sequence is premature when its turn comes. */
  predicate NeverParked(cur: Status, ts: seq<Trigger>)
    decreases |ts|
  {
    ts == [] || (!Apply(cur, ts[0]).ErrPrematureEvent? && NeverParked(After(cur, ts[0]), ts[1..]))
  }

  /** The triggers a batch holds for one saga, leaving out messages that are already marked. */
  function OwnTriggers(ds: seq<Delivery>, marked: set<Id>, id: Id): seq<Trigger>
    decreases |ds|
  {
    if ds == [] then []
    else
      (if Own(ds[0], marked, id) then [TopicTrigger(ds[0].env.topic).value] else [])
      + OwnTriggers(ds[1..], marked, id)
  }

  lemma OwnTriggersCons(ds: seq<Delivery>, marked: set<Id>, id: Id)
    requires ds != []
    ensures var rest := OwnTriggers(ds[1..], marked, id);
            OwnTriggers(ds, marked, id)
            == if Own(ds[0], marked, id) then [TopicTrigger(ds[0].env.topic).value] + rest else rest
  {
  }

  predicate Own(d: Delivery, marked: set<Id>, id: Id) {
    d.env.saga == id && d.env.key !in marked && TopicTrigger(d.env.topic).Some?
  }

  /** Equal keys mean the same event of the same saga. */
  predicate KeysIdentify(ds: seq<Delivery>) {
    forall i, j :: 0 <= i < |ds| && 0 <= j < |ds| && ds[i].env.key == ds[j].env.key ==>
      ds[i].env.saga == ds[j].env.saga && ds[i].env.topic == ds[j].env.topic
  }

  lemma NeverParkedCons(cur: Status, t: Trigger, ts: seq<Trigger>)
    ensures NeverParked(cur, [t] + ts) <==> !Apply(cur, t).ErrPrematureEvent? && NeverParked(After(cur, t), ts)
  {
    assert ([t] + ts)[1..] == ts;
  }

  /** Repeats of an accepted message make no difference to whether anything gets parked. */
  lemma {:induction false} RepeatsDoNotMatter(ds: seq<Delivery>, marked: set<Id>, k: Id, id: Id, cur: Status,
                                              t: Trigger)
    requires forall i :: 0 <= i < |ds| && ds[i].env.key == k && ds[i].env.saga == id ==>
               TopicTrigger(ds[i].env.topic) == Some(t)
    requires Absorbed(cur, t)
    ensures NeverParked(cur, OwnTriggers(ds, marked, id)) <==> NeverParked(cur, OwnTriggers(ds, marked + {k}, id))
    decreases |ds|
  {
    if ds != [] {
      var rest, rest' := OwnTriggers(ds[1..], marked, id), OwnTriggers(ds[1..], marked + {k}, id);
      if Own(ds[0], marked, id) {
        var u := TopicTrigger(ds[0].env.topic).value;
        OwnTriggersCons(ds, marked, id);
        OwnTriggersCons(ds, marked + {k}, id);
        NeverParkedCons(cur, u, rest);
        NeverParkedCons(cur, u, rest');
        AbsorbedStep(cur, t, u);
        RepeatsDoNotMatter(ds[1..], marked, k, id, After(cur, u), t);
      } else {
        OwnTriggersCons(ds, marked, id);
        OwnTriggersCons(ds, marked + {k}, id);
        RepeatsDoNotMatter(ds[1..], marked, k, id, cur, t);
      }
    }
  }

  lemma {:induction false} OtherKeysDoNotMatter(ds: seq<Delivery>, marked: set<Id>, k: Id, id: Id)
    requires forall i :: 0 <= i < |ds| && ds[i].env.key == k ==> ds[i].env.saga != id
    ensures OwnTriggers(ds, marked + {k}, id) == OwnTriggers(ds, marked, id)
    decreases |ds|
  {
    if ds != [] {
      OtherKeysDoNotMatter(ds[1..], marked, k, id);
    }
  }

  ghost predicate NoSagaParks(db: OrderDb, ds: seq<Delivery>) {
    forall id :: id in db.orders ==> NeverParked(db.orders[id].status, OwnTriggers(ds, db.markers, id))
  }

  /** Dispatching one delivery without an error does not change which sagas would park the rest. */
  lemma NoSagaParksStep(db: OrderDb, ds: seq<Delivery>, id: Id)
    requires ds != [] && KeysIdentify(ds) && id in db.orders
    requires !HandleEvent(db, ds[0].env, ds[0].emitKey).1.IsError()
    ensures var db' := HandleEvent(db, ds[0].env, ds[0].emitKey).0;
            && id in db'.orders
            && (NeverParked(db.orders[id].status, OwnTriggers(ds, db.markers, id))
                <==> NeverParked(db'.orders[id].status, OwnTriggers(ds[1..], db'.markers, id)))
  {
    var d, rest := ds[0], ds[1..];
    var r := HandleEvent(db, d.env, d.emitKey);
    var cur := db.orders[id].status;
    OwnTriggersCons(ds, db.markers, id);
    if Own(d, db.markers, id) {
      NeverParkedCons(cur, TopicTrigger(d.env.topic).value, OwnTriggers(rest, db.markers, id));
    }
    if r.1.IsFirstAcceptance() {
      AcceptedEffect(db, d.env, d.emitKey);
      MarkingDoesNotMatter(ds, db.markers, id,
                           if d.env.saga == id then After(cur, TopicTrigger(d.env.topic).value) else cur);
    }
  }

  lemma MarkingDoesNotMatter(ds: seq<Delivery>, marked: set<Id>, id: Id, cur: Status)
    requires ds != [] && KeysIdentify(ds) && TopicTrigger(ds[0].env.topic).Some?
    requires ds[0].env.saga == id ==> Absorbed(cur, TopicTrigger(ds[0].env.topic).value)
    ensures NeverParked(cur, OwnTriggers(ds[1..], marked, id))
       <==> NeverParked(cur, OwnTriggers(ds[1..], marked + {ds[0].env.key}, id))
  {
    var d, rest := ds[0], ds[1..];
    assert forall i :: 0 <= i < |rest| ==> rest[i] == ds[i + 1];
    if d.env.saga == id {
      RepeatsDoNotMatter(rest, marked, d.env.key, id, cur, TopicTrigger(d.env.topic).value);
    } else {
      OtherKeysDoNotMatter(rest, marked, d.env.key, id);
    }
  }

  lemma {:induction false} BatchParksNothing(db: OrderDb, ds: seq<Delivery>)
    requires KeysIdentify(ds)
    ensures AcceptedCount(db, ds) == |ds| <==> NoSagaParks(db, ds)
    decreases |ds|
  {
    if ds != [] {
      var r := HandleEvent(db, ds[0].env, ds[0].emitKey);
      if r.1.IsError() {
        var id := ds[0].env.saga;
        NeverParkedCons(db.orders[id].status, TopicTrigger(ds[0].env.topic).value,
                        OwnTriggers(ds[1..], db.markers, id));
        assert !NeverParked(db.orders[id].status, OwnTriggers(ds, db.markers, id));
      } else {
        forall id | id in db.orders { NoSagaParksStep(db, ds, id); }
        assert r.0.orders.Keys == db.orders.Keys;
        BatchParksNothing(r.0, ds[1..]);
      }
    }
  }

  // ----- "Too early", said without the state machine -----

  /** Some event of `ts` takes a PENDING order out of PENDING. */
  predicate Starts(ts: seq<Trigger>) {
    exists j :: 0 <= j < |ts| && ts[j] in {PaymentProcessed, PaymentFailed, InventoryReservationFailed}
  }

  /** A stock decision, or for a PENDING order a failed payment before any charge. */
  predicate SettlesAt(cur: Status, ts: seq<Trigger>, j: nat)
    requires j < |ts|
  {
    || ts[j] in {InventoryReserved, InventoryReservationFailed}
    || (cur == Pending && ts[j] == PaymentFailed && PaymentProcessed !in ts[..j])
  }

  /** Some event of `ts` takes an order that is PENDING or PAYMENT_OK beyond PAYMENT_OK. */
  predicate Settles(cur: Status, ts: seq<Trigger>) {
    exists j :: 0 <= j < |ts| && SettlesAt(cur, ts, j)
  }

  /** An event that may come early has something before it that makes it acceptable. */
  predicate Preceded(cur: Status, ts: seq<Trigger>, i: nat)
    requires i < |ts|
  {
    && (cur == Pending && ts[i] == InventoryReserved ==> Starts(ts[..i]))
    && (cur in {Pending, PaymentOK} && ts[i] == PaymentRefunded ==> Settles(cur, ts[..i]))
  }

  predicate AllPreceded(cur: Status, ts: seq<Trigger>) {
    forall i :: 0 <= i < |ts| ==> Preceded(cur, ts, i)
  }

  lemma StartsSnoc(ts: seq<Trigger>, t: Trigger)
    ensures Starts(ts + [t]) <==> Starts(ts) || t in {PaymentProcessed, PaymentFailed, InventoryReservationFailed}
  {
    var all := ts + [t];
    assert all[|ts|] == t;
    if Starts(ts) {
      var j :| 0 <= j < |ts| && ts[j] in {PaymentProcessed, PaymentFailed, InventoryReservationFailed};
      assert all[j] == ts[j];
    }
  }

  lemma SettlesSnoc(cur: Status, ts: seq<Trigger>, t: Trigger)
    ensures Settles(cur, ts + [t])
       <==> || Settles(cur, ts) || t in {InventoryReserved, InventoryReservationFailed}
            || (cur == Pending && t == PaymentFailed && PaymentProcessed !in ts)
  {
    var all := ts + [t];
    assert forall j :: 0 <= j < |ts| ==> all[j] == ts[j] && all[..j] == ts[..j];
    assert all[..|ts|] == ts && all[|ts|] == t;
    assert SettlesAt(cur, all, |ts|) <==>
           (t in {InventoryReserved, InventoryReservationFailed}
            || (cur == Pending && t == PaymentFailed && PaymentProcessed !in ts));
    forall j | 0 <= j < |ts| ensures SettlesAt(cur, all, j) <==> SettlesAt(cur, ts, j) {}
    if Settles(cur, ts) {
      var j :| 0 <= j < |ts| && SettlesAt(cur, ts, j);
      assert SettlesAt(cur, all, j);
    }
    if Settles(cur, all) {
      var j :| 0 <= j < |all| && SettlesAt(cur, all, j);
      assert j == |ts| || SettlesAt(cur, ts, j);
    }
  }

  lemma {:induction false} SnocStatus(cur: Status, ts: seq<Trigger>, t: Trigger)
    ensures AfterAll(cur, ts + [t]) == After(AfterAll(cur, ts), t)
    ensures NeverParked(cur, ts + [t]) <==> NeverParked(cur, ts) && !Apply(AfterAll(cur, ts), t).ErrPrematureEvent?
    decreases |ts|
  {
    if ts == [] {
      assert ts + [t] == [t];
      assert [t][1..] == [];
    } else {
      assert (ts + [t])[1..] == ts[1..] + [t];
      SnocStatus(After(cur, ts[0]), ts[1..], t);
    }
  }

  /** What an unparked sequence says about the status it leads to. */
  ghost predicate StatusSays(cur: Status, ts: seq<Trigger>, now: Status) {
    && (cur !in {Pending, PaymentOK} ==> now !in {Pending, PaymentOK})
    && (now == Pending <==> cur == Pending && !Starts(ts))
    && (cur in {Pending, PaymentOK} ==> (now in {Pending, PaymentOK} <==> !Settles(cur, ts)))
    && (cur == Pending && now == Pending ==> PaymentProcessed !in ts)
    && (cur == Pending && now == PaymentOK ==> PaymentProcessed in ts)
  }

  lemma {:induction false} StatusFromHistory(cur: Status, ts: seq<Trigger>)
    requires NeverParked(cur, ts)
    ensures StatusSays(cur, ts, AfterAll(cur, ts))
    decreases |ts|
  {
    if ts != [] {
      var init, last := ts[..|ts| - 1], ts[|ts| - 1];
      assert ts == init + [last];
      SnocStatus(cur, init, last);
      StatusFromHistory(cur, init);
      StartsSnoc(init, last);
      SettlesSnoc(cur, init, last);
    }
  }

  lemma AllPrecededSnoc(cur: Status, ts: seq<Trigger>, t: Trigger)
    ensures AllPreceded(cur, ts + [t]) <==> AllPreceded(cur, ts) && Preceded(cur, ts + [t], |ts|)
  {
    var all := ts + [t];
    forall i | 0 <= i < |ts| ensures Preceded(cur, all, i) <==> Preceded(cur, ts, i) {
      assert all[..i] == ts[..i];
    }
  }

  /** From any status, a sequence is never parked exactly when every early event is preceded. */
  lemma {:induction false} NeverParkedIsExact(cur: Status, ts: seq<Trigger>)
    ensures NeverParked(cur, ts) <==> AllPreceded(cur, ts)
    decreases |ts|
  {
    if ts != [] {
      var init, last := ts[..|ts| - 1], ts[|ts| - 1];
      assert ts == init + [last];
      SnocStatus(cur, init, last);
      NeverParkedIsExact(cur, init);
      AllPrecededSnoc(cur, init, last);
      if NeverParked(cur, init) {
        StatusFromHistory(cur, init);
        assert ts[..|init|] == init;
      }
    }
  }

  /**
   A batch is accepted whole exactly when, for every order it concerns, each of that order's own events
   that may come early is preceded in the batch by one that makes it acceptable. How the sagas are
   interleaved in the batch does not matter.
   */
  lemma BatchAcceptedIsExact(db: OrderDb, ds: seq<Delivery>)
    requires KeysIdentify(ds)
    ensures AcceptedCount(db, ds) == |ds|
       <==> forall id :: id in db.orders ==> AllPreceded(db.orders[id].status, OwnTriggers(ds, db.markers, id))
  {
    BatchParksNothing(db, ds);
    forall id | id in db.orders {
      NeverParkedIsExact(db.orders[id].status, OwnTriggers(ds, db.markers, id));
    }
  }
}
