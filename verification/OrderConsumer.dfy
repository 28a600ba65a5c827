/** Order's consumer loop: poll a batch, dispatch it, abort and rewind on the first error, else commit. */
module OrderConsumer {
  import opened Messages
  import opened Orders

  /** One partition of a poll: the next `count` records of `topic`. */
  datatype Fetched = Fetched(topic: Topic, count: nat)

  /** A record, by topic and offset. */
  datatype Ref = Ref(topic: Topic, offset: nat)

  /** The store, the client's offsets, and the records whose handler has returned nil. */
  datatype Group = Group(db: OrderDb, position: map<Topic, nat>, committed: map<Topic, nat>, accepted: set<Ref>)

  function At(m: map<Topic, nat>, t: Topic): nat {
    if t in m then m[t] else 0
  }

  /** What the broker may hand out: distinct partitions, records that exist. */
  predicate ValidFetch(logs: Logs, position: map<Topic, nat>, fetch: seq<Fetched>) {
    && (forall i :: 0 <= i < |fetch| ==> At(position, fetch[i].topic) + fetch[i].count <= |LogOf(logs, fetch[i].topic)|)
    && forall i, j :: 0 <= i < j < |fetch| ==> fetch[i].topic != fetch[j].topic
  }

  function PartitionRefs(t: Topic, from: nat, count: nat): seq<Ref> {
    seq(count, i requires 0 <= i < count => Ref(t, from + i))
  }

  /** The records of a poll in dispatch order. */
  function Refs(position: map<Topic, nat>, fetch: seq<Fetched>): seq<Ref> {
    if fetch == [] then []
    else PartitionRefs(fetch[0].topic, At(position, fetch[0].topic), fetch[0].count) + Refs(position, fetch[1..])
  }

  predicate Exist(logs: Logs, refs: seq<Ref>) {
    forall i :: 0 <= i < |refs| ==> refs[i].offset < |LogOf(logs, refs[i].topic)|
  }

  /** The deliveries of a batch; `keys` are the UUIDs its handlers would draw. */
  function Deliveries(logs: Logs, refs: seq<Ref>, keys: nat -> Id): seq<Delivery>
    requires Exist(logs, refs)
  {
    seq(|refs|, i requires 0 <= i < |refs| => Delivery(LogOf(logs, refs[i].topic)[refs[i].offset], keys(i)))
  }

  /** How many deliveries are dispatched successfully before the first handler error. */
  function AcceptedCount(db: OrderDb, ds: seq<Delivery>): (n: nat)
    ensures n <= |ds|
    decreases |ds|
  {
    if ds == [] then 0
    else
      var r := HandleEvent(db, ds[0].env, ds[0].emitKey);
      if r.1.IsError() then 0 else 1 + AcceptedCount(r.0, ds[1..])
  }

  /** A handler error that is not of the event's making: the call for one record of the batch fails. */
  datatype Failure = Fine | FailsAt(record: nat, fault: HandlerFault)

  function FaultAt(f: Failure, i: nat): HandlerFault {
    if f.FailsAt? && f.record == i then f.fault else NoFault
  }

  /** The failure strikes before the batch would have stopped by itself. */
  predicate Hits(db: OrderDb, ds: seq<Delivery>, f: Failure) {
    && f.FailsAt? && f.record < AcceptedCount(db, ds)
    && Attempt(Deliver(db, ds[..f.record]), ds[f.record].env, ds[f.record].emitKey, f.fault).1.IsError()
  }

  /** How many handler calls return nil. */
  function HandledCount(db: OrderDb, ds: seq<Delivery>, f: Failure): (n: nat)
    ensures n <= AcceptedCount(db, ds)
  {
    if Hits(db, ds, f) then f.record else AcceptedCount(db, ds)
  }

  /** How many transactions commit: one more than that if only the reply was lost. */
  function CommittedCount(db: OrderDb, ds: seq<Delivery>, f: Failure): (n: nat)
    ensures HandledCount(db, ds, f) <= n <= AcceptedCount(db, ds)
  {
    if Hits(db, ds, f) && f.fault.LosesReply? then f.record + 1 else HandledCount(db, ds, f)
  }

  function Taken(refs: seq<Ref>, n: nat): set<Ref>
    requires n <= |refs|
  {
    set r | r in refs[..n]
  }

  lemma TakenSnoc(refs: seq<Ref>, n: nat)
    requires n < |refs|
    ensures Taken(refs, n + 1) == Taken(refs, n) + {refs[n]}
  {
    assert refs[..n + 1] == refs[..n] + [refs[n]];
  }

  lemma TakenMore(before: set<Ref>, refs: seq<Ref>, n: nat)
    requires n < |refs|
    ensures before + Taken(refs, n + 1) == before + Taken(refs, n) + {refs[n]}
  {
    TakenSnoc(refs, n);
  }

  function Advanced(position: map<Topic, nat>, fetch: seq<Fetched>): map<Topic, nat>
    decreases |fetch|
  {
    if fetch == [] then position
    else Advanced(position[fetch[0].topic := At(position, fetch[0].topic) + fetch[0].count], fetch[1..])
  }

  lemma {:induction false} FetchExists(logs: Logs, position: map<Topic, nat>, fetch: seq<Fetched>)
    requires ValidFetch(logs, position, fetch)
    ensures Exist(logs, Refs(position, fetch))
  {
    if fetch != [] {
      FetchExists(logs, position, fetch[1..]);
    }
  }

  /**
   One turn of the loop. A failed batch leaves the offsets alone; a good one is committed whole,
   unless the commit itself fails.
   */
  function Poll(g: Group, logs: Logs, fetch: seq<Fetched>, keys: nat -> Id, f: Failure, commits: bool): Group
    requires ValidFetch(logs, g.position, fetch)
  {
    FetchExists(logs, g.position, fetch);
    var refs := Refs(g.position, fetch);
    var ds := Deliveries(logs, refs, keys);
    var n := HandledCount(g.db, ds, f);
    var accepted := g.accepted + Taken(refs, n);
    var db := Deliver(g.db, ds[..CommittedCount(g.db, ds, f)]);
    if n < |ds| then Group(db, g.position, g.committed, accepted)
    else
      var position := Advanced(g.position, fetch);
      Group(db, position, if commits then position else g.committed, accepted)
  }

  /** Dispatch has got through the first `n` deliveries. */
  ghost predicate Reaches(db: OrderDb, ds: seq<Delivery>, f: Failure, n: nat) {
    && n <= |ds|
    && AcceptedCount(db, ds) == n + AcceptedCount(Deliver(db, ds[..n]), ds[n..])
    && (Hits(db, ds, f) ==> n <= f.record)
  }

  /** The next call either takes dispatch one further, or stops it where HandledCount says. */
  lemma ReachesStep(db: OrderDb, ds: seq<Delivery>, f: Failure, n: nat)
    requires n < |ds| && Reaches(db, ds, f, n)
    ensures var r := Attempt(Deliver(db, ds[..n]), ds[n].env, ds[n].emitKey, FaultAt(f, n));
            if r.1.IsError() then n == HandledCount(db, ds, f) && r.0 == Deliver(db, ds[..CommittedCount(db, ds, f)])
            else r.0 == Deliver(db, ds[..n + 1]) && Reaches(db, ds, f, n + 1)
  {
    DeliverSnoc(db, ds[..n], ds[n]);
    assert ds[..n] + [ds[n]] == ds[..n + 1];
    assert ds[n..][1..] == ds[n + 1..];
  }

  /** The store is `now` after `n` calls have returned nil, and the last call failed if `failed`. */
  ghost predicate Dispatching(db: OrderDb, ds: seq<Delivery>, f: Failure, n: nat, failed: bool, now: OrderDb) {
    && n <= |ds|
    && if failed then n < |ds| && n == HandledCount(db, ds, f) && now == Deliver(db, ds[..CommittedCount(db, ds, f)])
       else now == Deliver(db, ds[..n]) && Reaches(db, ds, f, n)
  }

  lemma DispatchingStarts(db: OrderDb, ds: seq<Delivery>, f: Failure)
    ensures Dispatching(db, ds, f, 0, false, db)
  {
    assert ds[..0] == [] && ds[0..] == ds;
  }

  lemma DispatchingStep(db: OrderDb, ds: seq<Delivery>, f: Failure, n: nat, now: OrderDb)
    requires n < |ds| && Dispatching(db, ds, f, n, false, now)
    ensures var r := Attempt(now, ds[n].env, ds[n].emitKey, FaultAt(f, n));
            if r.1.IsError() then Dispatching(db, ds, f, n, true, r.0) else Dispatching(db, ds, f, n + 1, false, r.0)
  {
    ReachesStep(db, ds, f, n);
  }

  lemma DispatchingEnds(db: OrderDb, ds: seq<Delivery>, f: Failure, n: nat, failed: bool, now: OrderDb)
    requires Dispatching(db, ds, f, n, failed, now) && (failed || n == |ds|)
    ensures n == HandledCount(db, ds, f) && (failed <==> n < |ds|)
    ensures now == Deliver(db, ds[..CommittedCount(db, ds, f)])
  {
    assert ds[|ds|..] == [];
  }

  lemma {:induction false} DeliverSnoc(db: OrderDb, ds: seq<Delivery>, d: Delivery)
    ensures Deliver(db, ds + [d]) == HandleEvent(Deliver(db, ds), d.env, d.emitKey).0
    decreases |ds|
  {
    if ds == [] {
      assert [d][1..] == [];
      assert ds + [d] == [d];
    } else {
      assert (ds + [d])[1..] == ds[1..] + [d];
      DeliverSnoc(HandleEvent(db, ds[0].env, ds[0].emitKey).0, ds[1..], d);
    }
  }

  // ----- What stops a batch -----

  /** Left alone, a batch stops at its first handler error, and only there. */
  lemma {:induction false} StopsAtFirstError(db: OrderDb, ds: seq<Delivery>, i: nat)
    requires i < |ds|
    ensures i < AcceptedCount(db, ds) ==> !HandleEvent(Deliver(db, ds[..i]), ds[i].env, ds[i].emitKey).1.IsError()
    ensures i == AcceptedCount(db, ds) ==> HandleEvent(Deliver(db, ds[..i]), ds[i].env, ds[i].emitKey).1 == Premature
    decreases i
  {
    var r := HandleEvent(db, ds[0].env, ds[0].emitKey);
    if i > 0 && !r.1.IsError() {
      StopsAtFirstError(r.0, ds[1..], i - 1);
      assert ds[..i][1..] == ds[1..][..i - 1];
    }
  }

  /** A batch that gets to record `k`, which is one for a handler. */
  ghost predicate GetsTo(g: Group, logs: Logs, fetch: seq<Fetched>, keys: nat -> Id, k: nat)
    requires ValidFetch(logs, g.position, fetch) && Exist(logs, Refs(g.position, fetch))
  {
    var ds := Deliveries(logs, Refs(g.position, fetch), keys);
    k < AcceptedCount(g.db, ds) && Consumes(OrderService, ds[k].env.topic)
  }

  /** A failing statement at record `k` leaves the effects of the records before it, and the batch will come again. */
  lemma RollbackAbortsTheBatch(
    g: Group, logs: Logs, fetch: seq<Fetched>, keys: nat -> Id, k: nat, at: nat, commits: bool)
    requires ValidFetch(logs, g.position, fetch) && Exist(logs, Refs(g.position, fetch))
    requires GetsTo(g, logs, fetch, keys, k) && at <= 1
    ensures var refs := Refs(g.position, fetch);
            var ds := Deliveries(logs, refs, keys);
            Poll(g, logs, fetch, keys, FailsAt(k, RollsBack(at)), commits)
            == Group(Deliver(g.db, ds[..k]), g.position, g.committed, g.accepted + set r | r in refs[..k])
  {
    var ds := Deliveries(logs, Refs(g.position, fetch), keys);
    RollbackIsExact(Deliver(g.db, ds[..k]), ds[k].env, ds[k].emitKey, at);
  }

  /** So it does after a lost reply, but then the record's own effect stays too. */
  lemma LostReplyAbortsTheBatch(
    g: Group, logs: Logs, fetch: seq<Fetched>, keys: nat -> Id, k: nat, commits: bool)
    requires ValidFetch(logs, g.position, fetch) && Exist(logs, Refs(g.position, fetch))
    requires GetsTo(g, logs, fetch, keys, k)
    requires var ds := Deliveries(logs, Refs(g.position, fetch), keys);
             ds[k].env.key in Deliver(g.db, ds[..k + 1]).markers
    ensures var refs := Refs(g.position, fetch);
            var ds := Deliveries(logs, refs, keys);
            Poll(g, logs, fetch, keys, FailsAt(k, LosesReply), commits)
            == Group(Deliver(g.db, ds[..k + 1]), g.position, g.committed, g.accepted + set r | r in refs[..k])
  {
    LostReplyCounts(g.db, Deliveries(logs, Refs(g.position, fetch), keys), k);
  }

  lemma LostReplyCounts(db: OrderDb, ds: seq<Delivery>, k: nat)
    requires k < AcceptedCount(db, ds) && Consumes(OrderService, ds[k].env.topic)
    requires ds[k].env.key in Deliver(db, ds[..k + 1]).markers
    ensures HandledCount(db, ds, FailsAt(k, LosesReply)) == k && CommittedCount(db, ds, FailsAt(k, LosesReply)) == k + 1
  {
    LostReplyIsExact(Deliver(db, ds[..k]), ds[k].env, ds[k].emitKey);
    DeliverSnoc(db, ds[..k], ds[k]);
    assert ds[..k] + [ds[k]] == ds[..k + 1];
  }

  /** The first `i` partitions of a poll have been received. */
  ghost predicate Received(
    p0: map<Topic, nat>, fetch: seq<Fetched>, i: nat, p: map<Topic, nat>, refs: seq<Ref>, rewind: map<Topic, nat>)
  {
    && i <= |fetch|
    && refs + Refs(p0, fetch[i..]) == Refs(p0, fetch)
    && Advanced(p, fetch[i..]) == Advanced(p0, fetch)
    && (forall k :: i <= k < |fetch| ==> At(p, fetch[k].topic) == At(p0, fetch[k].topic))
    && forall t :: if t in rewind then rewind[t] == At(p0, t) else At(p, t) == At(p0, t)
  }

  lemma ReceivedStep(
    p0: map<Topic, nat>, fetch: seq<Fetched>, i: nat, p: map<Topic, nat>, refs: seq<Ref>, rewind: map<Topic, nat>)
    requires i < |fetch| && Received(p0, fetch, i, p, refs, rewind)
    requires forall j, k :: 0 <= j < k < |fetch| ==> fetch[j].topic != fetch[k].topic
    ensures var f, from := fetch[i], At(p, fetch[i].topic);
            Received(p0, fetch, i + 1, p[f.topic := from + f.count], refs + PartitionRefs(f.topic, from, f.count),
                     if f.count > 0 then rewind[f.topic := from] else rewind)
  {
    var f, from := fetch[i], At(p, fetch[i].topic);
    var now, rest := PartitionRefs(f.topic, from, f.count), Refs(p0, fetch[i + 1..]);
    assert fetch[i..][1..] == fetch[i + 1..];
    assert Refs(p0, fetch[i..]) == now + rest;
    assert (refs + now) + rest == refs + (now + rest);
  }

  /** Equal but for entries that say that a topic is at offset 0. */
  ghost predicate SameGroup(g: Group, g': Group) {
    && g.db == g'.db && g.accepted == g'.accepted && g.committed == g'.committed
    && forall t :: At(g.position, t) == At(g'.position, t)
  }

  lemma PollCases(g: Group, logs: Logs, fetch: seq<Fetched>, keys: nat -> Id, f: Failure, commits: bool, g': Group)
    requires ValidFetch(logs, g.position, fetch) && Exist(logs, Refs(g.position, fetch))
    requires var ds := Deliveries(logs, Refs(g.position, fetch), keys);
             var n := HandledCount(g.db, ds, f);
             && g'.db == Deliver(g.db, ds[..CommittedCount(g.db, ds, f)])
             && g'.accepted == g.accepted + Taken(Refs(g.position, fetch), n)
             && if n < |ds| then g'.committed == g.committed && forall t :: At(g'.position, t) == At(g.position, t)
                else g'.position == Advanced(g.position, fetch)
                     && g'.committed == if commits then g'.position else g.committed
    ensures SameGroup(g', Poll(g, logs, fetch, keys, f, commits))
  {
  }

  // ----- The loop -----

  class Consumer {
    const store: Store
    var position: map<Topic, nat>
    var committed: map<Topic, nat>
    ghost var accepted: set<Ref>

    ghost function State(): Group
      reads this, store
    {
      Group(store.Db(), position, committed, accepted)
    }

    constructor (store: Store)
      ensures this.store == store && position == map[] && committed == map[] && accepted == {}
    {
      this.store, position, committed, accepted := store, map[], map[], {};
    }

    /** Collect the fetched records and each partition's first offset, and move the positions. */
    method Receive(fetch: seq<Fetched>) returns (refs: seq<Ref>, rewind: map<Topic, nat>)
      requires forall i, j :: 0 <= i < j < |fetch| ==> fetch[i].topic != fetch[j].topic
      modifies this`position
      ensures refs == Refs(old(position), fetch)
      ensures position == Advanced(old(position), fetch)
      ensures forall t :: At(position + rewind, t) == At(old(position), t)
    {
      refs, rewind := [], map[];
      var i := 0;
      assert fetch[0..] == fetch;
      while i < |fetch|
        invariant Received(old(position), fetch, i, position, refs, rewind)
      {
        ReceivedStep(old(position), fetch, i, position, refs, rewind);
        var f := fetch[i];
        var from := if f.topic in position then position[f.topic] else 0;
        if f.count > 0 {
          rewind := rewind[f.topic := from];
        }
        position := position[f.topic := from + f.count];
        refs := refs + PartitionRefs(f.topic, from, f.count);
        i := i + 1;
      }
    }

    /** One record of a batch, of which the first `n` have been handled. */
    method HandleRecord(e: Envelope, key: Id, fault: HandlerFault, ghost start: OrderDb, ghost ds: seq<Delivery>,
                        ghost f: Failure, ghost n: nat, ghost ref: Ref)
      returns (failed: bool)
      requires n < |ds| && ds[n] == Delivery(e, key) && fault == FaultAt(f, n)
      requires Dispatching(start, ds, f, n, false, store.Db())
      modifies store, this`accepted
      ensures Dispatching(start, ds, f, if failed then n else n + 1, failed, store.Db())
      ensures accepted == if failed then old(accepted) else old(accepted) + {ref}
    {
      DispatchingStep(start, ds, f, n, store.Db());
      var outcome := store.Handle(e, key, fault);
      failed := outcome.IsError();
      if !failed {
        accepted := accepted + {ref};
      }
    }

    /** Dispatch until the first handler error. */
    method DispatchBatch(logs: Logs, refs: seq<Ref>, keys: nat -> Id, f: Failure) returns (failed: bool, ghost n: nat)
      requires Exist(logs, refs)
      modifies store, this`accepted
      ensures var ds := Deliveries(logs, refs, keys);
              && n == HandledCount(old(store.Db()), ds, f)
              && store.Db() == Deliver(old(store.Db()), ds[..CommittedCount(old(store.Db()), ds, f)])
      ensures failed <==> n < |refs|
      ensures accepted == old(accepted) + Taken(refs, n)
    {
      failed, n := false, 0;
      ghost var ds, start := Deliveries(logs, refs, keys), store.Db();
      DispatchingStarts(start, ds, f);
      var i := 0;
      while i < |refs|
        invariant 0 <= n <= i <= |refs| && (!failed ==> n == i)
        invariant accepted == old(accepted) + Taken(refs, n)
        invariant Dispatching(start, ds, f, n, failed, store.Db())
      {
        if !failed {
          var e := LogOf(logs, refs[i].topic)[refs[i].offset];
          failed := HandleRecord(e, keys(i), FaultAt(f, i), start, ds, f, n, refs[i]);
          if !failed {
            TakenMore(old(accepted), refs, n);
            n := n + 1;
          }
        }
        i := i + 1;
      }
      DispatchingEnds(start, ds, f, n, failed, store.Db());
    }

    method PollOnce(logs: Logs, fetch: seq<Fetched>, keys: nat -> Id, f: Failure, commits: bool)
      requires ValidFetch(logs, position, fetch)
      modifies this, store
      ensures SameGroup(State(), Poll(old(State()), logs, fetch, keys, f, commits))
    {
      FetchExists(logs, position, fetch);
      var refs, rewind := Receive(fetch);
      var failed, n := DispatchBatch(logs, refs, keys, f);
      if failed {
        position := position + rewind;
      } else if commits {
        committed := position;
      }
      PollCases(old(State()), logs, fetch, keys, f, commits, State());
    }
  }
}
