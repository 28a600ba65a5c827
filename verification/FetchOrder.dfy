/** An order of topics in which Order's loop never parks anything that the services emit. */
module FetchOrder {
  import opened Messages
  import opened OrderDomain
  import opened Orders
  import opened OrderConsumer
  import opened OrderRetries
  import opened SagaSystem
  import opened SagaView
  import opened SagaInvariant
  import opened OrderSteps
  import opened SagaSafety
  import opened SagaOutcome

  /** Causes before effects. */
  const GOOD_ORDER :=
    [TopicPaymentProcessed, TopicPaymentFailed, TopicInventoryReserved, TopicReservationFailed, TopicPaymentRefunded]

  function Rank(t: Trigger): nat {
    match t
    case PaymentProcessed => 0
    case PaymentFailed => 1
    case InventoryReserved => 2
    case InventoryReservationFailed => 3
    case PaymentRefunded => 4
  }

  function RankOf(t: Topic): nat {
    if TopicTrigger(t).Some? then Rank(TopicTrigger(t).value) else 5
  }

  lemma GoodRank(i: nat)
    requires i < 5
    ensures RankOf(GOOD_ORDER[i]) == i && Consumes(OrderService, GOOD_ORDER[i])
  {
    assert GOOD_ORDER[0] == TopicPaymentProcessed && GOOD_ORDER[1] == TopicPaymentFailed;
    assert GOOD_ORDER[2] == TopicInventoryReserved && GOOD_ORDER[3] == TopicReservationFailed;
    assert GOOD_ORDER[4] == TopicPaymentRefunded;
  }

  lemma ConsumedIsRanked(t: Topic)
    requires Consumes(OrderService, t)
    ensures RankOf(t) < 5 && GOOD_ORDER[RankOf(t)] == t
  {
    GoodRank(RankOf(t));
  }

  /** Everything unread, topic by topic in that order. */
  function Everything(logs: Logs, p: map<Topic, nat>): seq<Fetched>
    requires forall t :: t in GOOD_ORDER ==> At(p, t) <= |LogOf(logs, t)|
  {
    seq(5, i requires 0 <= i < 5 => Fetched(GOOD_ORDER[i], |LogOf(logs, GOOD_ORDER[i])| - At(p, GOOD_ORDER[i])))
  }

  predicate Ranked(ts: seq<Trigger>) {
    forall i, j :: 0 <= i < j < |ts| ==> Rank(ts[i]) <= Rank(ts[j])
  }

  predicate InGoodOrder(topics: seq<Topic>) {
    forall i, j :: 0 <= i < j < |topics| ==> RankOf(topics[i]) <= RankOf(topics[j])
  }

  function TopicsOf(ds: seq<Delivery>): seq<Topic> {
    seq(|ds|, i requires 0 <= i < |ds| => ds[i].env.topic)
  }

  lemma {:induction false} OwnTriggersMember(ds: seq<Delivery>, marked: set<Id>, id: Id, t: Trigger)
    ensures t in OwnTriggers(ds, marked, id)
       <==> exists i :: 0 <= i < |ds| && Own(ds[i], marked, id) && TopicTrigger(ds[i].env.topic) == Some(t)
    decreases |ds|
  {
    if ds != [] {
      OwnTriggersMember(ds[1..], marked, id, t);
      assert forall i :: 0 <= i < |ds[1..]| ==> ds[1..][i] == ds[i + 1];
      if exists i :: 0 <= i < |ds| && Own(ds[i], marked, id) && TopicTrigger(ds[i].env.topic) == Some(t) {
        var i :| 0 <= i < |ds| && Own(ds[i], marked, id) && TopicTrigger(ds[i].env.topic) == Some(t);
        assert i > 0 ==> ds[1..][i - 1] == ds[i];
      }
    }
  }

  lemma GoodOrderTail(ds: seq<Delivery>)
    requires ds != [] && InGoodOrder(TopicsOf(ds))
    ensures InGoodOrder(TopicsOf(ds[1..]))
    ensures forall i :: 0 <= i < |ds[1..]| ==> RankOf(ds[0].env.topic) <= RankOf(ds[1..][i].env.topic)
  {
    var all := TopicsOf(ds);
    assert TopicsOf(ds[1..]) == all[1..];
    forall i | 0 <= i < |ds[1..]| ensures RankOf(ds[0].env.topic) <= RankOf(ds[1..][i].env.topic) {
      assert all[0] == ds[0].env.topic && all[i + 1] == ds[1..][i].env.topic;
    }
  }

  lemma NoneBelow(ds: seq<Delivery>, marked: set<Id>, id: Id, rank: nat, t: Trigger)
    requires forall i :: 0 <= i < |ds| ==> rank <= RankOf(ds[i].env.topic)
    requires t in OwnTriggers(ds, marked, id)
    ensures rank <= Rank(t)
  {
    OwnTriggersMember(ds, marked, id, t);
    var i :| 0 <= i < |ds| && Own(ds[i], marked, id) && TopicTrigger(ds[i].env.topic) == Some(t);
  }

  lemma {:induction false} OwnTriggersRanked(ds: seq<Delivery>, marked: set<Id>, id: Id)
    requires InGoodOrder(TopicsOf(ds))
    ensures Ranked(OwnTriggers(ds, marked, id))
    decreases |ds|
  {
    if ds != [] {
      var rest := OwnTriggers(ds[1..], marked, id);
      GoodOrderTail(ds);
      OwnTriggersRanked(ds[1..], marked, id);
      OwnTriggersCons(ds, marked, id);
      if Own(ds[0], marked, id) {
        var first := TopicTrigger(ds[0].env.topic).value;
        forall t | t in rest ensures Rank(first) <= Rank(t) {
          NoneBelow(ds[1..], marked, id, Rank(first), t);
        }
        RankedCons(first, rest);
      }
    }
  }

  lemma RankedCons(t: Trigger, ts: seq<Trigger>)
    requires Ranked(ts) && forall u :: u in ts ==> Rank(t) <= Rank(u)
    ensures Ranked([t] + ts)
  {
    var all := [t] + ts;
    forall i, j | 0 <= i < j < |all| ensures Rank(all[i]) <= Rank(all[j]) {
      assert all[j] == ts[j - 1] && ts[j - 1] in ts;
      assert i > 0 ==> all[i] == ts[i - 1];
    }
  }

  /** In a ranked sequence a trigger of lower rank comes before. */
  lemma RankedBefore(ts: seq<Trigger>, i: nat, t: Trigger) returns (j: nat)
    requires Ranked(ts) && i < |ts| && t in ts && Rank(t) < Rank(ts[i])
    ensures j < i && ts[j] == t
  {
    j :| 0 <= j < |ts| && ts[j] == t;
  }

  /** Early events that are accompanied by what they need are preceded by it. */
  lemma RankedIsPreceded(cur: Status, ts: seq<Trigger>)
    requires Ranked(ts)
    requires cur == Pending && InventoryReserved in ts ==> PaymentProcessed in ts
    requires cur in {Pending, PaymentOK} && PaymentRefunded in ts ==> InventoryReservationFailed in ts
    ensures AllPreceded(cur, ts)
  {
    forall i | 0 <= i < |ts| ensures Preceded(cur, ts, i) {
      if cur == Pending && ts[i] == InventoryReserved {
        var j := RankedBefore(ts, i, PaymentProcessed);
        assert ts[..i][j] == PaymentProcessed;
      }
      if cur in {Pending, PaymentOK} && ts[i] == PaymentRefunded {
        var j := RankedBefore(ts, i, InventoryReservationFailed);
        assert ts[..i][j] == InventoryReservationFailed && SettlesAt(cur, ts[..i], j);
      }
    }
  }

  // ----- The records of such a poll -----

  predicate FetchRanked(fetch: seq<Fetched>) {
    forall i, j :: 0 <= i < j < |fetch| ==> RankOf(fetch[i].topic) < RankOf(fetch[j].topic)
  }

  function RefTopics(refs: seq<Ref>): seq<Topic> {
    seq(|refs|, i requires 0 <= i < |refs| => refs[i].topic)
  }

  /** Each record belongs to one of the fetched partitions, and each fetched record is there. */
  lemma {:induction false} RefsAre(p: map<Topic, nat>, fetch: seq<Fetched>, r: Ref)
    ensures r in Refs(p, fetch)
       <==> exists k :: 0 <= k < |fetch| && InPartition(p, fetch[k], r)
  {
    if fetch != [] {
      RefsAre(p, fetch[1..], r);
      var part := PartitionRefs(fetch[0].topic, At(p, fetch[0].topic), fetch[0].count);
      if InPartition(p, fetch[0], r) {
        assert part[r.offset - At(p, r.topic)] == r;
      }
      if exists k :: 0 <= k < |fetch| && InPartition(p, fetch[k], r) {
        var k :| 0 <= k < |fetch| && InPartition(p, fetch[k], r);
        assert k > 0 ==> fetch[1..][k - 1] == fetch[k];
      }
      if exists k :: 0 <= k < |fetch[1..]| && InPartition(p, fetch[1..][k], r) {
        var k :| 0 <= k < |fetch[1..]| && InPartition(p, fetch[1..][k], r);
        assert fetch[k + 1] == fetch[1..][k];
      }
    }
  }

  predicate InPartition(p: map<Topic, nat>, f: Fetched, r: Ref) {
    r.topic == f.topic && At(p, f.topic) <= r.offset < At(p, f.topic) + f.count
  }

  lemma {:induction false} RefsInGoodOrder(p: map<Topic, nat>, fetch: seq<Fetched>)
    requires FetchRanked(fetch)
    ensures InGoodOrder(RefTopics(Refs(p, fetch)))
  {
    if fetch != [] {
      var part, rest := PartitionRefs(fetch[0].topic, At(p, fetch[0].topic), fetch[0].count), Refs(p, fetch[1..]);
      RefsInGoodOrder(p, fetch[1..]);
      forall i | 0 <= i < |rest| ensures RankOf(fetch[0].topic) <= RankOf(rest[i].topic) {
        assert rest[i] in rest;
        RefsAre(p, fetch[1..], rest[i]);
        var k :| 0 <= k < |fetch[1..]| && InPartition(p, fetch[1..][k], rest[i]);
        assert fetch[k + 1] == fetch[1..][k];
      }
      PartThenRest(fetch[0].topic, part, rest);
    }
  }

  lemma PartThenRest(t: Topic, part: seq<Ref>, rest: seq<Ref>)
    requires forall i :: 0 <= i < |part| ==> part[i].topic == t
    requires InGoodOrder(RefTopics(rest)) && forall i :: 0 <= i < |rest| ==> RankOf(t) <= RankOf(rest[i].topic)
    ensures InGoodOrder(RefTopics(part + rest))
  {
    var all := RefTopics(part + rest);
    forall i | 0 <= i < |all| ensures all[i] == if i < |part| then t else rest[i - |part|].topic {}
    forall i, j | 0 <= i < j < |all| ensures RankOf(all[i]) <= RankOf(all[j]) {
      if i >= |part| {
        assert RefTopics(rest)[i - |part|] == all[i] && RefTopics(rest)[j - |part|] == all[j];
      }
    }
  }

  // ----- What the services emit -----

  /** Order's positions in the system. */
  ghost predicate ReadsAt(s: Sys, p: map<Topic, nat>) {
    forall t :: Position(s, OrderService, t) == At(p, t)
  }

  lemma PositionsAreBounded(s: Sys, p: map<Topic, nat>, t: Topic)
    requires OffsetsOk(s) && ReadsAt(s, p)
    ensures At(p, t) <= |LogOf(s.logs, t)|
  {
    assert Committed(s, OrderService, t) <= Position(s, OrderService, t) <= |Log(s, t)|;
  }

  lemma EverythingIsRanked(logs: Logs, p: map<Topic, nat>)
    requires forall t :: t in GOOD_ORDER ==> At(p, t) <= |LogOf(logs, t)|
    ensures FetchRanked(Everything(logs, p)) && ValidFetch(logs, p, Everything(logs, p))
  {
    var fetch := Everything(logs, p);
    forall i | 0 <= i < 5
      ensures RankOf(fetch[i].topic) == i
      ensures At(p, fetch[i].topic) + fetch[i].count <= |LogOf(logs, fetch[i].topic)|
    {
      GoodRank(i);
      assert GOOD_ORDER[i] in GOOD_ORDER && fetch[i].topic == GOOD_ORDER[i];
    }
    forall i, j | 0 <= i < j < |fetch| ensures fetch[i].topic != fetch[j].topic {
      assert RankOf(fetch[i].topic) == i && RankOf(fetch[j].topic) == j;
    }
  }

  lemma GoodOrderIsValid(s: Sys, p: map<Topic, nat>)
    requires OffsetsOk(s) && ReadsAt(s, p)
    ensures forall t :: t in GOOD_ORDER ==> At(p, t) <= |LogOf(s.logs, t)|
    ensures ValidFetch(s.logs, p, Everything(s.logs, p)) && FetchRanked(Everything(s.logs, p))
    ensures Exist(s.logs, Refs(p, Everything(s.logs, p)))
  {
    forall t ensures At(p, t) <= |LogOf(s.logs, t)| {
      PositionsAreBounded(s, p, t);
    }
    EverythingIsRanked(s.logs, p);
    FetchExists(s.logs, p, Everything(s.logs, p));
  }

  /** The deliveries of the poll of everything. */
  function Batch(s: Sys, p: map<Topic, nat>, keys: nat -> Id): seq<Delivery>
    requires OffsetsOk(s) && ReadsAt(s, p)
  {
    GoodOrderIsValid(s, p);
    Deliveries(s.logs, Refs(p, Everything(s.logs, p)), keys)
  }

  lemma BatchRecord(s: Sys, p: map<Topic, nat>, keys: nat -> Id, i: nat)
    requires ChannelInv(s) && ReadsAt(s, p) && i < |Batch(s, p, keys)|
    ensures var e := Batch(s, p, keys)[i].env; Consumes(OrderService, e.topic) && RecordOk(s, e.topic, e)
  {
    GoodOrderIsValid(s, p);
    var refs := Refs(p, Everything(s.logs, p));
    RefsAre(p, Everything(s.logs, p), refs[i]);
    var k :| 0 <= k < 5 && InPartition(p, Everything(s.logs, p)[k], refs[i]);
    GoodRank(k);
    assert RecordOk(s, refs[i].topic, Log(s, refs[i].topic)[refs[i].offset]);
  }

  /** Every unread record of a topic in good order is in the poll. */
  lemma UnreadIsPolled(s: Sys, p: map<Topic, nat>, keys: nat -> Id, c: nat, n: nat) returns (i: nat)
    requires OffsetsOk(s) && ReadsAt(s, p) && c < 5
    requires Position(s, OrderService, GOOD_ORDER[c]) <= n < |Log(s, GOOD_ORDER[c])|
    ensures i < |Batch(s, p, keys)| && Batch(s, p, keys)[i].env == Log(s, GOOD_ORDER[c])[n]
  {
    GoodOrderIsValid(s, p);
    var fetch, r := Everything(s.logs, p), Ref(GOOD_ORDER[c], n);
    assert InPartition(p, fetch[c], r);
    RefsAre(p, fetch, r);
    i :| 0 <= i < |Refs(p, fetch)| && Refs(p, fetch)[i] == r;
  }

  /** With drained outboxes, a message that is owed to Order is in the unread part of its topic. */
  lemma OwedIsUnread(s: Sys, e: Envelope) returns (n: nat)
    requires AllPublished(s) && Owed(s, OrderService, e)
    ensures Position(s, OrderService, e.topic) <= n < |Log(s, e.topic)| && Log(s, e.topic)[n] == e
  {
    forall i | 0 <= i < |Outbox(s, Producer(e.topic))| ensures Outbox(s, Producer(e.topic))[i].status == RowPublished {}
    n :| Position(s, OrderService, e.topic) <= n < |Log(s, e.topic)| && Log(s, e.topic)[n] == e;
  }

  lemma OutstandingIsUnread(s: Sys, id: Id, t: Topic) returns (n: nat)
    requires Inv(s) && AllPublished(s) && Consumes(OrderService, t) && EvAt(ViewOf(s, id), t) == Once(false)
    ensures Position(s, OrderService, t) <= n < |Log(s, t)|
    ensures var e := Log(s, t)[n]; e.saga == id && e.topic == t && e.key !in s.order.markers
  {
    EvAtOfView(s, id, t);
    var k := Emitted(Outbox(s, Producer(t)), id, t)[0];
    UnhandledIsOwed(s, OrderService, id, t, k);
    n := OwedIsUnread(s, s.issued[k]);
  }

  lemma OutstandingIsPolled(s: Sys, p: map<Topic, nat>, keys: nat -> Id, id: Id, t: Topic)
    requires Inv(s) && AllPublished(s) && ReadsAt(s, p)
    requires Consumes(OrderService, t) && EvAt(ViewOf(s, id), t) == Once(false)
    ensures TopicTrigger(t).Some? && TopicTrigger(t).value in OwnTriggers(Batch(s, p, keys), s.order.markers, id)
  {
    ConsumedIsRanked(t);
    var n := OutstandingIsUnread(s, id, t);
    var i := UnreadIsPolled(s, p, keys, RankOf(t), n);
    var ds := Batch(s, p, keys);
    assert Own(ds[i], s.order.markers, id);
    OwnTriggersMember(ds, s.order.markers, id, TopicTrigger(t).value);
  }

  lemma OneTopicPerTrigger(t: Topic, u: Topic)
    requires TopicTrigger(t).Some? && TopicTrigger(t) == TopicTrigger(u)
    ensures t == u
  {
  }

  /** An unmarked record of the poll is one that its saga's view has as emitted once and not accepted. */
  lemma UnmarkedIsOutstanding(s: Sys, p: map<Topic, nat>, keys: nat -> Id, i: nat)
    requires Inv(s) && ReadsAt(s, p) && i < |Batch(s, p, keys)|
    ensures var e := Batch(s, p, keys)[i].env;
            e.key !in s.order.markers ==> EvAt(ViewOf(s, e.saga), e.topic) == Once(false)
  {
    BatchRecord(s, p, keys, i);
    OrderKnowsTheRecord(s, Batch(s, p, keys)[i].env.topic, Batch(s, p, keys)[i].env);
  }

  /** Whatever the poll holds for an order has been emitted once and not been accepted. */
  lemma PolledIsOutstanding(s: Sys, p: map<Topic, nat>, keys: nat -> Id, id: Id, t: Topic)
    requires Inv(s) && ReadsAt(s, p) && TopicTrigger(t).Some?
    requires TopicTrigger(t).value in OwnTriggers(Batch(s, p, keys), s.order.markers, id)
    ensures EvAt(ViewOf(s, id), t) == Once(false)
  {
    var ds := Batch(s, p, keys);
    OwnTriggersMember(ds, s.order.markers, id, TopicTrigger(t).value);
    var i :| 0 <= i < |ds| && Own(ds[i], s.order.markers, id) && TopicTrigger(ds[i].env.topic) == TopicTrigger(t);
    UnmarkedIsOutstanding(s, p, keys, i);
    OneTopicPerTrigger(t, ds[i].env.topic);
  }

  /** The poll holds for an order exactly what has been emitted for it and not been accepted. */
  lemma PolledIsExact(s: Sys, p: map<Topic, nat>, keys: nat -> Id, id: Id, t: Topic)
    requires Inv(s) && AllPublished(s) && ReadsAt(s, p) && Consumes(OrderService, t)
    ensures TopicTrigger(t).Some?
    ensures TopicTrigger(t).value in OwnTriggers(Batch(s, p, keys), s.order.markers, id)
       <==> EvAt(ViewOf(s, id), t) == Once(false)
  {
    if EvAt(ViewOf(s, id), t) == Once(false) {
      OutstandingIsPolled(s, p, keys, id, t);
    } else if TopicTrigger(t).value in OwnTriggers(Batch(s, p, keys), s.order.markers, id) {
      PolledIsOutstanding(s, p, keys, id, t);
    }
  }

  /** What makes an outstanding early event acceptable is outstanding too. */
  lemma OutstandingNeeds(v: View, id: Id)
    requires ViewOk(v, id) && v.order.Some?
    ensures v.order.value.status == Pending && EvAt(v, TopicInventoryReserved) == Once(false) ==>
              EvAt(v, TopicPaymentProcessed) == Once(false)
    ensures v.order.value.status in {Pending, PaymentOK} && EvAt(v, TopicPaymentRefunded) == Once(false) ==>
              EvAt(v, TopicReservationFailed) == Once(false)
  {
  }

  /** So the triggers of all that is outstanding, in good order, are never parked. */
  lemma OutstandingIsPreceded(v: View, id: Id, ts: seq<Trigger>)
    requires ViewOk(v, id) && v.order.Some? && Ranked(ts)
    requires forall t :: Consumes(OrderService, t) ==>
               TopicTrigger(t).Some? && (TopicTrigger(t).value in ts <==> EvAt(v, t) == Once(false))
    ensures AllPreceded(v.order.value.status, ts)
  {
    OutstandingNeeds(v, id);
    assert Consumes(OrderService, TopicInventoryReserved) && Consumes(OrderService, TopicPaymentProcessed);
    assert Consumes(OrderService, TopicPaymentRefunded) && Consumes(OrderService, TopicReservationFailed);
    RankedIsPreceded(v.order.value.status, ts);
  }

  lemma BatchIsPreceded(s: Sys, p: map<Topic, nat>, keys: nat -> Id, id: Id)
    requires Inv(s) && AllPublished(s) && ReadsAt(s, p) && id in s.order.orders
    ensures AllPreceded(s.order.orders[id].status, OwnTriggers(Batch(s, p, keys), s.order.markers, id))
  {
    var v, ts := ViewOf(s, id), OwnTriggers(Batch(s, p, keys), s.order.markers, id);
    BatchInGoodOrder(s, p, keys);
    OwnTriggersRanked(Batch(s, p, keys), s.order.markers, id);
    forall t | Consumes(OrderService, t)
      ensures TopicTrigger(t).Some? && (TopicTrigger(t).value in ts <==> EvAt(v, t) == Once(false))
    {
      PolledIsExact(s, p, keys, id, t);
    }
    assert ViewOk(v, id);
    OutstandingIsPreceded(v, id, ts);
  }

  lemma BatchInGoodOrder(s: Sys, p: map<Topic, nat>, keys: nat -> Id)
    requires ChannelInv(s) && ReadsAt(s, p)
    ensures InGoodOrder(TopicsOf(Batch(s, p, keys)))
  {
    GoodOrderIsValid(s, p);
    var refs, ds := Refs(p, Everything(s.logs, p)), Batch(s, p, keys);
    RefsInGoodOrder(p, Everything(s.logs, p));
    forall i | 0 <= i < |ds| ensures TopicsOf(ds)[i] == RefTopics(refs)[i] {
      assert RecordOk(s, refs[i].topic, Log(s, refs[i].topic)[refs[i].offset]);
    }
    assert TopicsOf(ds) == RefTopics(refs);
  }

  lemma BatchKeysIdentify(s: Sys, p: map<Topic, nat>, keys: nat -> Id)
    requires ChannelInv(s) && ReadsAt(s, p)
    ensures KeysIdentify(Batch(s, p, keys))
  {
    var ds := Batch(s, p, keys);
    forall i, j | 0 <= i < |ds| && 0 <= j < |ds| && ds[i].env.key == ds[j].env.key
      ensures ds[i].env.saga == ds[j].env.saga && ds[i].env.topic == ds[j].env.topic
    {
      BatchRecord(s, p, keys, i);
      BatchRecord(s, p, keys, j);
    }
  }

  // ----- The poll itself -----

  /** A fetch with one entry per topic moves the position of each by what it fetched. */
  lemma {:induction false} AdvancedBy(p: map<Topic, nat>, fetch: seq<Fetched>, i: nat)
    requires FetchRanked(fetch) && i < |fetch|
    ensures At(Advanced(p, fetch), fetch[i].topic) == At(p, fetch[i].topic) + fetch[i].count
    decreases |fetch|
  {
    var p1, t := p[fetch[0].topic := At(p, fetch[0].topic) + fetch[0].count], fetch[i].topic;
    if i == 0 {
      forall k | 0 <= k < |fetch[1..]| ensures fetch[1..][k].topic != t {
        assert fetch[1..][k] == fetch[k + 1] && RankOf(fetch[0].topic) < RankOf(fetch[k + 1].topic);
      }
      AdvancedElsewhere(p1, fetch[1..], t);
    } else {
      assert RankOf(fetch[0].topic) < RankOf(t);
      assert fetch[1..][i - 1] == fetch[i];
      AdvancedBy(p1, fetch[1..], i - 1);
    }
  }

  lemma EverythingReachesTheEnd(s: Sys, p: map<Topic, nat>, t: Topic)
    requires OffsetsOk(s) && ReadsAt(s, p) && Consumes(OrderService, t)
    ensures forall u :: u in GOOD_ORDER ==> At(p, u) <= |LogOf(s.logs, u)|
    ensures At(Advanced(p, Everything(s.logs, p)), t) == |Log(s, t)|
  {
    GoodOrderIsValid(s, p);
    ConsumedIsRanked(t);
    var fetch, i := Everything(s.logs, p), RankOf(t);
    AdvancedBy(p, fetch, i);
    assert fetch[i] == Fetched(t, |LogOf(s.logs, t)| - At(p, t));
  }

  lemma BatchIsAccepted(s: Sys, p: map<Topic, nat>, keys: nat -> Id)
    requires Inv(s) && AllPublished(s) && ReadsAt(s, p)
    ensures AcceptedCount(s.order, Batch(s, p, keys)) == |Batch(s, p, keys)|
  {
    var ds := Batch(s, p, keys);
    BatchKeysIdentify(s, p, keys);
    forall id | id in s.order.orders
      ensures AllPreceded(s.order.orders[id].status, OwnTriggers(ds, s.order.markers, id))
    {
      BatchIsPreceded(s, p, keys, id);
    }
    BatchAcceptedIsExact(s.order, ds);
  }

  /** The turn with that poll, if no handler fails for another reason. */
  function GoodTurn(s: Sys, g: Group, keys: nat -> Id, commits: bool): Group
    requires OffsetsOk(s) && ReadsAt(s, g.position)
  {
    GoodOrderIsValid(s, g.position);
    Poll(g, s.logs, Everything(s.logs, g.position), keys, Fine, commits)
  }

  lemma GoodTurnTakesAll(s: Sys, g: Group, keys: nat -> Id, commits: bool)
    requires Inv(s) && AllPublished(s) && ReadsAt(s, g.position) && g.db == s.order
    ensures var g' := GoodTurn(s, g, keys, commits);
            && g'.position == Advanced(g.position, Everything(s.logs, g.position))
            && (commits ==> g'.committed == g'.position)
            && g'.db == Deliver(s.order, Batch(s, g.position, keys))
  {
    var ds := Batch(s, g.position, keys);
    BatchIsAccepted(s, g.position, keys);
    assert ds[..|ds|] == ds;
  }

  /**
   In every reachable state with drained outboxes, for any number of sagas, one poll of everything unread that
   takes the topics in good order is accepted whole, and leaves Order at the end of every log it reads.
   */
  lemma GoodOrderIsAccepted(s0: Sys, steps: seq<Step>, g: Group, keys: nat -> Id, commits: bool)
    requires Init(s0) && CanRun(s0, steps) && AllPublished(Run(s0, steps))
    requires ReadsAt(Run(s0, steps), g.position) && g.db == Run(s0, steps).order
    ensures var s := Run(s0, steps);
            && OffsetsOk(s)
            && AcceptedCount(s.order, Batch(s, g.position, keys)) == |Batch(s, g.position, keys)|
            && var g' := GoodTurn(s, g, keys, commits);
               && g'.db == Deliver(s.order, Batch(s, g.position, keys))
               && (forall t :: Consumes(OrderService, t) ==> At(g'.position, t) == |Log(s, t)|)
               && (commits ==> g'.committed == g'.position)
  {
    var s := Run(s0, steps);
    ReachableInv(s0, steps);
    BatchIsAccepted(s, g.position, keys);
    GoodTurnTakesAll(s, g, keys, commits);
    forall t | Consumes(OrderService, t) ensures At(GoodTurn(s, g, keys, commits).position, t) == |Log(s, t)| {
      EverythingReachesTheEnd(s, g.position, t);
    }
  }
}
