/** The outbox relays of the three services, against one specification. */
module OutboxRelay {
  import opened Messages

  /** What can go wrong while one fetched row is being dispatched. */
  datatype Fault =
    | NoFault
    | PublishFails(counted: bool, appended: bool)
      // publish raises; `counted` when the attempt counter was written, `appended` when the record is logged
      // all the same, because it was queued in the producer or its acknowledgement was lost
    | MarkFails       // published, but the row was not marked (error or crash)
    | MarkLosesReply  // published and marked, but the relay is told that the mark failed
    | Crash           // the process dies before publishing
  {
    /** The record of the row is logged although its dispatch does not complete. */
    predicate ReachesTheLog() {
      MarkFails? || MarkLosesReply? || (PublishFails? && appended)
    }
  }

  datatype DrainResult =
    | Drained(published: nat)
    | FetchError(published: nat)
    | PublishError(published: nat)
    | MarkError(published: nat)
    | Crashed(published: nat)

  /** The table and, in order, the row numbers that have been sent. */
  datatype Outbox = Outbox(rows: seq<Row>, sends: seq<nat>)

  // ----- Reading the table -----

  /** Row numbers of the PENDING rows from `from` on, in creation order. */
  function PendingFrom(rows: seq<Row>, from: nat): seq<nat>
    requires from <= |rows|
    decreases |rows| - from
  {
    if from == |rows| then []
    else (if rows[from].status == RowPending then [from] else []) + PendingFrom(rows, from + 1)
  }

  function Fetch(rows: seq<Row>, limit: nat): seq<nat> {
    var p := PendingFrom(rows, 0);
    if |p| <= limit then p else p[..limit]
  }

  function CountPending(rows: seq<Row>): nat {
    |PendingFrom(rows, 0)|
  }

  function MarkPublished(rows: seq<Row>, i: nat): seq<Row>
    requires i < |rows|
  {
    rows[i := rows[i].(status := RowPublished)]
  }

  function MarkFailed(rows: seq<Row>, i: nat): seq<Row>
    requires i < |rows|
  {
    rows[i := rows[i].(attempts := rows[i].attempts + 1)]
  }

  predicate InTable(todo: seq<nat>, rows: seq<Row>) {
    forall k :: 0 <= k < |todo| ==> todo[k] < |rows|
  }

  // ----- One drain -----

  /** Dispatch the fetched rows `todo`; `done` of the batch have been published already. */
  function DrainRows(o: Outbox, todo: seq<nat>, faults: nat -> Fault, done: nat): (Outbox, DrainResult)
    requires InTable(todo, o.rows)
    decreases |todo|
  {
    if todo == [] then (o, Drained(done))
    else
      match faults(done)
      case Crash => (o, Crashed(done))
      case PublishFails(counted, appended) =>
        (Outbox(if counted then MarkFailed(o.rows, todo[0]) else o.rows,
                if appended then o.sends + [todo[0]] else o.sends),
         PublishError(done))
      case MarkFails => (o.(sends := o.sends + [todo[0]]), MarkError(done))
      case MarkLosesReply => (Outbox(MarkPublished(o.rows, todo[0]), o.sends + [todo[0]]), MarkError(done))
      case NoFault =>
        DrainRows(Outbox(MarkPublished(o.rows, todo[0]), o.sends + [todo[0]]), todo[1..], faults, done + 1)
  }

  lemma {:induction false} PendingMembers(rows: seq<Row>, from: nat)
    requires from <= |rows|
    ensures forall k :: 0 <= k < |PendingFrom(rows, from)| ==>
              from <= PendingFrom(rows, from)[k] < |rows| && rows[PendingFrom(rows, from)[k]].status == RowPending
    ensures forall j, k :: 0 <= j < k < |PendingFrom(rows, from)| ==>
            PendingFrom(rows, from)[j] < PendingFrom(rows, from)[k]
    decreases |rows| - from
  {
    if from < |rows| {
      PendingMembers(rows, from + 1);
    }
  }

  /** One drain; the fetch may fail, and does for a negative LIMIT. */
  function Drain(o: Outbox, limit: int, fetched: bool, faults: nat -> Fault): (Outbox, DrainResult) {
    if !fetched || limit < 0 then (o, FetchError(0))
    else
      PendingMembers(o.rows, 0);
      DrainRows(o, Fetch(o.rows, limit), faults, 0)
  }

  /** The SQL relay methods and the three relay loops over one table. */
  class Relay {
    var rows: seq<Row>
    var sends: seq<nat>
    const batchSize: int

    function State(): Outbox
      reads this
    {
      Outbox(rows, sends)
    }

    constructor (rows: seq<Row>, batchSize: int)
      ensures State() == Outbox(rows, []) && this.batchSize == batchSize
    {
      this.rows, this.sends, this.batchSize := rows, [], batchSize;
    }

    /** SELECT ... WHERE status = 'PENDING' ORDER BY created_at LIMIT: the first rows that are pending. */
    method FetchPending(limit: nat) returns (recs: seq<nat>)
      ensures recs == Fetch(rows, limit)
    {
      recs := [];
      var i := |rows|;
      while i > 0
        invariant 0 <= i <= |rows|
        invariant recs == PendingFrom(rows, i)
      {
        i := i - 1;
        if rows[i].status == RowPending {
          recs := [i] + recs;
        } else {
          assert [] + recs == recs;
        }
      }
      if |recs| > limit {
        recs := recs[..limit];
      }
    }

    /** Order: returns the count together with the error; a batch size that is not positive falls back to 100. */
    method DrainOrder(fetched: bool, faults: nat -> Fault) returns (result: DrainResult)
      modifies this
      ensures (State(), result) == Drain(old(State()), if batchSize <= 0 then 100 else batchSize, fetched, faults)
    {
      if !fetched {
        return FetchError(0);
      }
      var todo := FetchPending(if batchSize <= 0 then 100 else batchSize);
      PendingMembers(rows, 0);
      result := DispatchOrReturn(todo, faults);
    }

    method DispatchOrReturn(todo: seq<nat>, faults: nat -> Fault) returns (result: DrainResult)
      requires InTable(todo, rows)
      modifies this
      ensures (State(), result) == DrainRows(old(State()), todo, faults, 0)
    {
      ghost var spec := DrainRows(State(), todo, faults, 0);
      var published := 0;
      while published < |todo|
        invariant 0 <= published <= |todo|
        invariant |rows| == |old(rows)| && InTable(todo, rows)
        invariant DrainRows(State(), todo[published..], faults, published) == spec
      {
        assert todo[published..][1..] == todo[published + 1..];
        match faults(published) {
          case Crash =>
            return Crashed(published);
          case PublishFails(counted, appended) =>
            if appended {
              sends := sends + [todo[published]];
            }
            if counted {
              rows := MarkFailed(rows, todo[published]);
            }
            return PublishError(published);
          case MarkFails =>
            sends := sends + [todo[published]];
            return MarkError(published);
          case MarkLosesReply =>
            sends := sends + [todo[published]];
            rows := MarkPublished(rows, todo[published]);
            return MarkError(published);
          case NoFault =>
            sends := sends + [todo[published]];
            rows := MarkPublished(rows, todo[published]);
            published := published + 1;
        }
      }
      return Drained(published);
    }

    /** Inventory: rethrows, so the count is only known on normal return. */
    method DrainInventory(fetched: bool, faults: nat -> Fault) returns (published: nat, raised: bool)
      modifies this
      ensures var d := Drain(old(State()), if batchSize <= 0 then 100 else batchSize, fetched, faults);
              State() == d.0 && (raised <==> !d.1.Drained?) && (!raised ==> published == d.1.published)
    {
      if !fetched {
        return 0, true;
      }
      var todo := FetchPending(if batchSize > 0 then batchSize else 100);
      PendingMembers(rows, 0);
      published, raised := DispatchOrRaise(todo, faults);
    }

    /** Payment: like Inventory, but the batch size is used as it is; a negative LIMIT is an SQL error. */
    method DrainPayment(fetched: bool, faults: nat -> Fault) returns (published: nat, raised: bool)
      modifies this
      ensures var d := Drain(old(State()), batchSize, fetched, faults);
              State() == d.0 && (raised <==> !d.1.Drained?) && (!raised ==> published == d.1.published)
    {
      if !fetched || batchSize < 0 {
        return 0, true;
      }
      var todo := FetchPending(batchSize);
      PendingMembers(rows, 0);
      published, raised := DispatchOrRaise(todo, faults);
    }

    method DispatchOrRaise(todo: seq<nat>, faults: nat -> Fault) returns (published: nat, raised: bool)
      requires InTable(todo, rows)
      modifies this
      ensures var d := DrainRows(old(State()), todo, faults, 0);
              State() == d.0 && (raised <==> !d.1.Drained?) && (!raised ==> published == d.1.published)
    {
      published, raised := 0, false;
      ghost var spec := DrainRows(State(), todo, faults, 0);
      for k := 0 to |todo|
        invariant published == k && !raised
        invariant |rows| == |old(rows)| && InTable(todo, rows)
        invariant DrainRows(State(), todo[k..], faults, k) == spec
      {
        assert todo[k..][1..] == todo[k + 1..];
        match faults(k) {
          case Crash =>
            raised := true;
            return;
          case PublishFails(counted, appended) =>
            if appended {
              sends := sends + [todo[k]];
            }
            if counted {
              rows := MarkFailed(rows, todo[k]);
            }
            raised := true;
            return;
          case MarkLosesReply =>
            sends := sends + [todo[k]];
            rows := MarkPublished(rows, todo[k]);
            raised := true;
            return;
          case MarkFails =>
            sends := sends + [todo[k]];
            raised := true;
            return;
          case NoFault =>
            sends := sends + [todo[k]];
            rows := MarkPublished(rows, todo[k]);
            published := published + 1;
        }
      }
    }
  }

  // ----- What one drain does -----

  lemma {:induction false} PendingIsComplete(rows: seq<Row>, from: nat, i: nat)
    requires from <= |rows|
    ensures i in PendingFrom(rows, from) <==> from <= i < |rows| && rows[i].status == RowPending
    decreases |rows| - from
  {
    if from < |rows| {
      PendingIsComplete(rows, from + 1, i);
    }
  }

  /** A fetch takes the oldest PENDING rows, in creation order: as many as there are, up to the limit. */
  lemma FetchIsExact(rows: seq<Row>, limit: nat)
    ensures var batch := Fetch(rows, limit);
            && Dispatchable(batch, rows)
            && |batch| <= limit
            && forall i :: 0 <= i < |rows| && rows[i].status == RowPending && i !in batch ==>
                 |batch| == limit && forall k :: 0 <= k < |batch| ==> batch[k] < i
  {
    PendingMembers(rows, 0);
    var all, batch := PendingFrom(rows, 0), Fetch(rows, limit);
    forall i | 0 <= i < |rows| && rows[i].status == RowPending && i !in batch
      ensures |batch| == limit && forall k :: 0 <= k < |batch| ==> batch[k] < i
    {
      PendingIsComplete(rows, 0, i);
      var j :| 0 <= j < |all| && all[j] == i;
      assert |batch| <= j;
    }
  }

  /** What a relay reports of a row that it could not dispatch. */
  function ErrorOf(fault: Fault, published: nat): DrainResult
    requires !fault.NoFault?
  {
    match fault
    case PublishFails(_, _) => PublishError(published)
    case MarkFails | MarkLosesReply => MarkError(published)
    case Crash => Crashed(published)
  }

  /** A drain ends at the first row that meets a fault, and says how many came before it; else it is done. */
  lemma {:induction false} DrainEnds(o: Outbox, todo: seq<nat>, faults: nat -> Fault, done: nat)
    requires InTable(todo, o.rows)
    ensures var r := DrainRows(o, todo, faults, done).1;
            && done <= r.published <= done + |todo|
            && (forall i :: done <= i < r.published ==> faults(i) == NoFault)
            && if r.published == done + |todo| then r == Drained(done + |todo|)
               else faults(r.published) != NoFault && r == ErrorOf(faults(r.published), r.published)
    decreases |todo|
  {
    if todo != [] && faults(done).NoFault? {
      DrainEnds(Outbox(MarkPublished(o.rows, todo[0]), o.sends + [todo[0]]), todo[1..], faults, done + 1);
    }
  }

  /** Without a batch nothing is touched: the fetch failed, or its LIMIT was negative. */
  lemma NoFetchNoDrain(o: Outbox, limit: int, fetched: bool, faults: nat -> Fault)
    ensures Drain(o, limit, fetched, faults).1.FetchError? <==> !fetched || limit < 0
    ensures !fetched || limit < 0 ==> Drain(o, limit, fetched, faults) == (o, FetchError(0))
  {
    if fetched && limit >= 0 {
      PendingMembers(o.rows, 0);
      DrainEnds(o, Fetch(o.rows, limit), faults, 0);
    }
  }

  predicate Dispatchable(todo: seq<nat>, rows: seq<Row>) {
    && InTable(todo, rows)
    && (forall k :: 0 <= k < |todo| ==> rows[todo[k]].status == RowPending)
    && forall j, k :: 0 <= j < k < |todo| ==> todo[j] < todo[k]
  }

  /** Row `i` after a drain that published and marked `todo[..n]` and met `fault` at the next row. */
  function RowAfter(rows: seq<Row>, i: nat, todo: seq<nat>, n: nat, fault: Fault): Row
    requires i < |rows| && n <= |todo|
  {
    if i in todo[..n] then rows[i].(status := RowPublished)
    else if n == |todo| || i != todo[n] then rows[i]
    else if fault.PublishFails? && fault.counted then rows[i].(attempts := rows[i].attempts + 1)
    else if fault.MarkLosesReply? then rows[i].(status := RowPublished)
    else rows[i]
  }

  /**
   A drain sends, in order, a prefix of the batch: all of it exactly on normal return, else the rows it
   published and the one it stopped at if that one was logged all the same.
   */
  lemma {:induction false} DrainSends(o: Outbox, todo: seq<nat>, faults: nat -> Fault, done: nat)
    requires InTable(todo, o.rows)
    ensures var (o', r) := DrainRows(o, todo, faults, done);
            var n := r.published - done;
            && 0 <= n <= |todo| && (r.Drained? <==> n == |todo|)
            && |o'.rows| == |o.rows|
            && o'.sends == o.sends + todo[..if !r.Drained? && faults(r.published).ReachesTheLog() then n + 1 else n]
    decreases |todo|
  {
    if todo != [] && faults(done).NoFault? {
      var mid := Outbox(MarkPublished(o.rows, todo[0]), o.sends + [todo[0]]);
      DrainSends(mid, todo[1..], faults, done + 1);
      var r := DrainRows(o, todo, faults, done).1;
      var n := if !r.Drained? && faults(r.published).ReachesTheLog() then r.published - done + 1
               else r.published - done;
      assert todo[..n] == [todo[0]] + todo[1..][..n - 1];
    }
  }

  /**
   The rows published become PUBLISHED. The row a drain stops at stays PENDING, with one more attempt when
   its publish failed and the counter was written, unless only the reply of its mark was lost; no other row
   changes.
   */
  lemma {:induction false} DrainEffect(o: Outbox, todo: seq<nat>, faults: nat -> Fault, done: nat, i: nat)
    requires Dispatchable(todo, o.rows) && i < |o.rows|
    ensures var (o', r) := DrainRows(o, todo, faults, done);
            var n := r.published - done;
            && 0 <= n <= |todo| && |o'.rows| == |o.rows|
            && o'.rows[i] == RowAfter(o.rows, i, todo, n, faults(r.published))
    decreases |todo|
  {
    DrainSends(o, todo, faults, done);
    if todo != [] && faults(done).NoFault? {
      var mid := Outbox(MarkPublished(o.rows, todo[0]), o.sends + [todo[0]]);
      DrainEffect(mid, todo[1..], faults, done + 1, i);
      var r := DrainRows(o, todo, faults, done).1;
      DrainSends(mid, todo[1..], faults, done + 1);
      RowAfterCons(o.rows, i, todo, r.published - done, faults(r.published));
    }
  }

  lemma RowAfterCons(rows: seq<Row>, i: nat, todo: seq<nat>, n: nat, fault: Fault)
    requires Dispatchable(todo, rows) && i < |rows| && 0 < n <= |todo|
    ensures RowAfter(MarkPublished(rows, todo[0]), i, todo[1..], n - 1, fault) == RowAfter(rows, i, todo, n, fault)
  {
    assert todo[..n] == [todo[0]] + todo[1..][..n - 1];
  }

  lemma {:induction false} CountAfterMark(rows: seq<Row>, i: nat, from: nat)
    requires from <= |rows| && i < |rows| && rows[i].status == RowPending
    ensures |PendingFrom(MarkPublished(rows, i), from)| == |PendingFrom(rows, from)| - if from <= i then 1 else 0
    decreases |rows| - from
  {
    if from < |rows| {
      CountAfterMark(rows, i, from + 1);
    }
  }

  lemma {:induction false} CountAfterFailure(rows: seq<Row>, i: nat, from: nat)
    requires from <= |rows| && i < |rows|
    ensures |PendingFrom(MarkFailed(rows, i), from)| == |PendingFrom(rows, from)|
    decreases |rows| - from
  {
    if from < |rows| {
      CountAfterFailure(rows, i, from + 1);
    }
  }

  /**
   However a drain ends, the PENDING count falls by exactly the number of rows it published, and by one
   more if the reply of the last mark was lost.
   */
  lemma {:induction false} CountFallsByPublished(o: Outbox, todo: seq<nat>, faults: nat -> Fault, done: nat)
    requires Dispatchable(todo, o.rows)
    ensures var (o', r) := DrainRows(o, todo, faults, done);
            var unreported := if !r.Drained? && faults(r.published).MarkLosesReply? then 1 else 0;
            CountPending(o'.rows) + r.published + unreported == CountPending(o.rows) + done
    decreases |todo|
  {
    if todo != [] {
      CountAfterMark(o.rows, todo[0], 0);
      CountAfterFailure(o.rows, todo[0], 0);
      if faults(done).NoFault? {
        CountFallsByPublished(Outbox(MarkPublished(o.rows, todo[0]), o.sends + [todo[0]]), todo[1..], faults, done + 1);
      }
    }
  }

  function Faultless(n: nat): Fault {
    NoFault
  }

  function Drains(o: Outbox, limit: nat, times: nat): Outbox
    decreases times
  {
    if times == 0 then o else Drains(Drain(o, limit, true, Faultless).0, limit, times - 1)
  }

  lemma FaultlessDrain(o: Outbox, limit: nat)
    ensures CountPending(Drain(o, limit, true, Faultless).0.rows)
         == if CountPending(o.rows) <= limit then 0 else CountPending(o.rows) - limit
  {
    PendingMembers(o.rows, 0);
    var todo := Fetch(o.rows, limit);
    CountFallsByPublished(o, todo, Faultless, 0);
    FaultlessIsDrained(o, todo, 0);
  }

  lemma {:induction false} FaultlessIsDrained(o: Outbox, todo: seq<nat>, done: nat)
    requires InTable(todo, o.rows)
    ensures DrainRows(o, todo, Faultless, done).1 == Drained(done + |todo|)
    decreases |todo|
  {
    if todo != [] {
      FaultlessIsDrained(Outbox(MarkPublished(o.rows, todo[0]), o.sends + [todo[0]]), todo[1..], done + 1);
    }
  }

  /** Without faults, `times` drains of `limit` rows leave n - times * limit of n rows, or none. */
  lemma {:induction false} DrainsEmptyTheOutbox(o: Outbox, limit: nat, times: nat)
    ensures CountPending(Drains(o, limit, times).rows)
         == if CountPending(o.rows) <= times * limit then 0 else CountPending(o.rows) - times * limit
    decreases times
  {
    if times > 0 {
      FaultlessDrain(o, limit);
      DrainsEmptyTheOutbox(Drain(o, limit, true, Faultless).0, limit, times - 1);
      assert times * limit == (times - 1) * limit + limit;
    }
  }
}
