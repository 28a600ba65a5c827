/**
 Any number of relays on one outbox, each with the rows it has fetched in hand. The row locks of a
 fetch end with the fetch, so between fetching and marking anything may happen.
 */
module RelayFleet {
  import opened Messages
  import opened OutboxRelay

  /** The fetched rows still to be dispatched; `sent` when the first has been published but not marked. */
  datatype Batch = Batch(todo: seq<nat>, sent: bool)

  /**
   The outbox, the row numbers sent so far, the batches in hand, the rows left in a producer's queue by a
   publish that raised, and the rows logged by a dispatch that ended without a mark.
   */
  datatype Fleet = Fleet(
    rows: seq<Row>, sends: seq<nat>, held: map<nat, Batch>, queues: map<nat, seq<nat>>, lost: set<nat>)

  datatype Act =
    | InsertAct(env: Envelope)                               // a service transaction adds a row
    | FetchAct(relay: nat, limit: nat, locked: set<nat>)     // skips rows that concurrent fetches have locked
    | SendAct(relay: nat)                                    // publish returns, so the producer's queue is empty
    | MarkAct(relay: nat)
    | FailAct(relay: nat, counted: bool, queued: bool)       // publish raises, which ends the drain
    | DeliverAct(relay: nat, entry: nat)                     // the producer logs a message it still had queued
    | DiscardAct(relay: nat, entry: nat)                     // or gives it up
    | QuitAct(relay: nat)                                    // end of the batch, failed mark, lost reply, or crash

  const EMPTY := Fleet([], [], map[], map[], {})

  function QueueOf(f: Fleet, relay: nat): seq<nat> {
    if relay in f.queues then f.queues[relay] else []
  }

  function Without(queue: seq<nat>, entry: nat): seq<nat>
    requires entry < |queue|
  {
    queue[..entry] + queue[entry + 1..]
  }

  /** Row numbers of the PENDING rows from `from` on that are not locked, in creation order. */
  function Unlocked(rows: seq<Row>, locked: set<nat>, from: nat): seq<nat>
    requires from <= |rows|
    decreases |rows| - from
  {
    if from == |rows| then []
    else (if rows[from].status == RowPending && from !in locked then [from] else []) + Unlocked(rows, locked, from + 1)
  }

  function FetchUnlocked(rows: seq<Row>, limit: nat, locked: set<nat>): seq<nat> {
    var p := Unlocked(rows, locked, 0);
    if |p| <= limit then p else p[..limit]
  }

  predicate Holds(f: Fleet, relay: nat) {
    relay in f.held && f.held[relay].todo != [] && f.held[relay].todo[0] < |f.rows|
  }

  predicate CanAct(f: Fleet, a: Act) {
    match a
    case InsertAct(_) => true
    case FetchAct(relay, _, _) => relay !in f.held
    case SendAct(relay) => Holds(f, relay) && !f.held[relay].sent && QueueOf(f, relay) == []
    case MarkAct(relay) => Holds(f, relay) && f.held[relay].sent
    case FailAct(relay, _, _) => Holds(f, relay) && !f.held[relay].sent
    case DeliverAct(relay, entry) => entry < |QueueOf(f, relay)| && QueueOf(f, relay)[entry] < |f.rows|
    case DiscardAct(relay, entry) => entry < |QueueOf(f, relay)|
    case QuitAct(relay) => relay in f.held
  }

  function Do(f: Fleet, a: Act): Fleet
    requires CanAct(f, a)
  {
    match a
    case InsertAct(env) => f.(rows := f.rows + [NewRow(env)])
    case FetchAct(relay, limit, locked) =>
      f.(held := f.held[relay := Batch(FetchUnlocked(f.rows, limit, locked), false)])
    case SendAct(relay) =>
      var b := f.held[relay];
      f.(sends := f.sends + [b.todo[0]], held := f.held[relay := Batch(b.todo, true)])
    case MarkAct(relay) =>
      var b := f.held[relay];
      f.(rows := MarkPublished(f.rows, b.todo[0]), held := f.held[relay := Batch(b.todo[1..], false)])
    case FailAct(relay, counted, queued) =>
      var row := f.held[relay].todo[0];
      f.(rows := if counted then MarkFailed(f.rows, row) else f.rows, held := f.held - {relay},
         queues := if queued then f.queues[relay := QueueOf(f, relay) + [row]] else f.queues)
    case DeliverAct(relay, entry) =>
      var q := QueueOf(f, relay);
      f.(sends := f.sends + [q[entry]], queues := f.queues[relay := Without(q, entry)], lost := f.lost + {q[entry]})
    case DiscardAct(relay, entry) => f.(queues := f.queues[relay := Without(QueueOf(f, relay), entry)])
    case QuitAct(relay) =>
      var b := f.held[relay];
      f.(held := f.held - {relay}, lost := if b.sent && b.todo != [] then f.lost + {b.todo[0]} else f.lost)
  }

  /** The row that an act logs. */
  predicate AddsRecord(a: Act) {
    a.SendAct? || a.DeliverAct?
  }

  function LoggedRow(f: Fleet, a: Act): nat
    requires AddsRecord(a) && CanAct(f, a)
  {
    if a.SendAct? then f.held[a.relay].todo[0] else QueueOf(f, a.relay)[a.entry]
  }

  predicate CanActAll(f: Fleet, acts: seq<Act>)
    decreases |acts|, 0
  {
    acts == [] || (CanActAll(f, acts[..|acts| - 1]) && CanAct(After(f, acts[..|acts| - 1]), acts[|acts| - 1]))
  }

  function After(f: Fleet, acts: seq<Act>): Fleet
    requires CanActAll(f, acts)
    decreases |acts|, 1
  {
    if acts == [] then f else Do(After(f, acts[..|acts| - 1]), acts[|acts| - 1])
  }

  lemma AfterSnoc(f: Fleet, acts: seq<Act>, a: Act)
    requires CanActAll(f, acts) && CanAct(After(f, acts), a)
    ensures CanActAll(f, acts + [a]) && After(f, acts + [a]) == Do(After(f, acts), a)
  {
    assert (acts + [a])[..|acts|] == acts;
  }

  lemma {:induction false} AfterPrefix(f: Fleet, acts: seq<Act>, i: nat)
    requires CanActAll(f, acts) && i <= |acts|
    ensures CanActAll(f, acts[..i])
    decreases |acts|
  {
    if i == |acts| {
      assert acts[..i] == acts;
    } else {
      assert acts[..|acts| - 1][..i] == acts[..i];
      AfterPrefix(f, acts[..|acts| - 1], i);
    }
  }

  // ----- What has been sent -----

  predicate Increasing(todo: seq<nat>) {
    forall j, k :: 0 <= j < k < |todo| ==> todo[j] < todo[k]
  }

  /** Published by some relay that has not marked it yet. */
  predicate InFlight(f: Fleet, row: nat) {
    exists r :: r in f.held && f.held[r].sent && f.held[r].todo != [] && f.held[r].todo[0] == row
  }

  predicate IsPublished(f: Fleet, row: nat) {
    row < |f.rows| && f.rows[row].status == RowPublished
  }

  predicate BatchOk(f: Fleet, b: Batch, queue: seq<nat>) {
    InTable(b.todo, f.rows) && Increasing(b.todo) && (b.sent ==> b.todo != [] && queue == [])
  }

  predicate BatchesOk(f: Fleet) {
    && (forall r :: r in f.held ==> BatchOk(f, f.held[r], QueueOf(f, r)))
    && forall r :: r in f.queues ==> InTable(f.queues[r], f.rows)
  }

  /** A row has been sent exactly if it is marked, in flight, or was logged by a dispatch without a mark. */
  ghost predicate SendsOk(f: Fleet) {
    forall row :: row in f.sends <==> IsPublished(f, row) || InFlight(f, row) || row in f.lost
  }

  ghost predicate FleetInv(f: Fleet) {
    BatchesOk(f) && SendsOk(f) && forall row :: row in f.sends ==> row < |f.rows|
  }

  lemma {:induction false} UnlockedMembers(rows: seq<Row>, locked: set<nat>, from: nat)
    requires from <= |rows|
    ensures InTable(Unlocked(rows, locked, from), rows) && Increasing(Unlocked(rows, locked, from))
    ensures forall row :: row in Unlocked(rows, locked, from)
                     <==> from <= row < |rows| && rows[row].status == RowPending && row !in locked
    decreases |rows| - from
  {
    if from < |rows| {
      UnlockedMembers(rows, locked, from + 1);
      var rest := Unlocked(rows, locked, from + 1);
      forall k | 0 <= k < |rest| ensures from < rest[k] {
        assert rest[k] in rest;
      }
    }
  }

  /** A fetch takes the oldest PENDING rows that no other fetch has locked, as many as there are, up to the limit. */
  lemma FetchUnlockedIsExact(rows: seq<Row>, limit: nat, locked: set<nat>)
    ensures var batch := FetchUnlocked(rows, limit, locked);
            && Dispatchable(batch, rows) && |batch| <= limit && (forall row :: row in batch ==> row !in locked)
            && forall i :: 0 <= i < |rows| && rows[i].status == RowPending && i !in locked && i !in batch ==>
                 |batch| == limit && forall k :: 0 <= k < |batch| ==> batch[k] < i
  {
    UnlockedMembers(rows, locked, 0);
    var all, batch := Unlocked(rows, locked, 0), FetchUnlocked(rows, limit, locked);
    forall k | 0 <= k < |batch| ensures rows[batch[k]].status == RowPending && batch[k] !in locked {
      assert batch[k] == all[k] && all[k] in all;
    }
    forall i | 0 <= i < |rows| && rows[i].status == RowPending && i !in locked && i !in batch
      ensures |batch| == limit && forall k :: 0 <= k < |batch| ==> batch[k] < i
    {
      var j :| 0 <= j < |all| && all[j] == i;
      assert |batch| <= j;
    }
  }

  lemma InFlightElsewhere(f: Fleet, f': Fleet, relay: nat, row: nat)
    requires forall r :: r != relay ==> (r in f.held <==> r in f'.held) && (r in f.held ==> f'.held[r] == f.held[r])
    ensures InFlight(f, row) && !InFlight(f', row) ==>
              relay in f.held && f.held[relay].sent && f.held[relay].todo != [] && f.held[relay].todo[0] == row
    ensures InFlight(f', row) && !InFlight(f, row) ==>
              relay in f'.held && f'.held[relay].sent && f'.held[relay].todo != [] && f'.held[relay].todo[0] == row
  {
  }

  lemma QueueAfter(f: Fleet, relay: nat, q: seq<nat>)
    ensures QueueOf(f.(queues := f.queues[relay := q]), relay) == q
    ensures forall r :: r != relay ==> QueueOf(f.(queues := f.queues[relay := q]), r) == QueueOf(f, r)
  {
  }

  lemma ActKeepsQueues(f: Fleet, a: Act)
    requires BatchesOk(f) && CanAct(f, a)
    ensures forall r :: r in Do(f, a).queues ==> InTable(Do(f, a).queues[r], Do(f, a).rows)
  {
  }

  lemma ActKeepsHeld(f: Fleet, a: Act, r: nat)
    requires BatchesOk(f) && CanAct(f, a) && r in Do(f, a).held
    ensures BatchOk(Do(f, a), Do(f, a).held[r], QueueOf(Do(f, a), r))
  {
    if a.FetchAct? {
      UnlockedMembers(f.rows, a.locked, 0);
    }
    assert r in f.held ==> BatchOk(f, f.held[r], QueueOf(f, r));
  }

  lemma ActKeepsBatches(f: Fleet, a: Act)
    requires BatchesOk(f) && CanAct(f, a)
    ensures BatchesOk(Do(f, a))
  {
    ActKeepsQueues(f, a);
    forall r | r in Do(f, a).held ensures BatchOk(Do(f, a), Do(f, a).held[r], QueueOf(Do(f, a), r)) {
      ActKeepsHeld(f, a, r);
    }
  }

  lemma ActKeepsSends(f: Fleet, a: Act)
    requires FleetInv(f) && CanAct(f, a)
    ensures SendsOk(Do(f, a))
  {
    var f' := Do(f, a);
    forall row ensures row in f'.sends <==> IsPublished(f', row) || InFlight(f', row) || row in f'.lost {
      assert row in f.sends <==> IsPublished(f, row) || InFlight(f, row) || row in f.lost;
      if !a.InsertAct? {
        InFlightElsewhere(f, f', a.relay, row);
        if a.SendAct? && row == f.held[a.relay].todo[0] {
          assert f'.held[a.relay].sent && f'.held[a.relay].todo[0] == row;
        }
      }
    }
  }

  lemma ActKeepsInv(f: Fleet, a: Act)
    requires FleetInv(f) && CanAct(f, a)
    ensures FleetInv(Do(f, a))
  {
    ActKeepsBatches(f, a);
    ActKeepsSends(f, a);
  }

  lemma {:induction false} FleetInvHolds(f: Fleet, acts: seq<Act>)
    requires FleetInv(f) && CanActAll(f, acts)
    ensures FleetInv(After(f, acts))
    decreases |acts|
  {
    if acts != [] {
      var init, last := acts[..|acts| - 1], acts[|acts| - 1];
      FleetInvHolds(f, init);
      ActKeepsInv(After(f, init), last);
    }
  }

  // ----- When a send is a second dispatch -----

  /** Published by a relay other than `relay` that has not marked it yet. */
  predicate InFlightElse(f: Fleet, relay: nat, row: nat) {
    exists r :: r in f.held && r != relay && f.held[r].sent && f.held[r].todo != [] && f.held[r].todo[0] == row
  }

  /**
   Through any interleaving of any number of relays, a row is logged a second time exactly if it has been
   marked, is in flight at another relay, or was logged before by a dispatch that ended without a mark.
   This holds of publishes that return and of late deliveries by a producer whose publish raised.
   */
  lemma SecondDispatchIsExact(acts: seq<Act>, a: Act)
    requires CanActAll(EMPTY, acts) && CanAct(After(EMPTY, acts), a) && AddsRecord(a)
    ensures var f := After(EMPTY, acts);
            var row := LoggedRow(f, a);
            row in f.sends <==> IsPublished(f, row) || row in f.lost || InFlightElse(f, a.relay, row)
  {
    FleetInvHolds(EMPTY, acts);
    var f := After(EMPTY, acts);
    var row := LoggedRow(f, a);
    assert row in f.sends <==> IsPublished(f, row) || InFlight(f, row) || row in f.lost;
    assert a.relay in f.held ==> !f.held[a.relay].sent;
  }

  /** `acts[i]` marks row `row`. */
  predicate MarksAt(f: Fleet, acts: seq<Act>, i: nat, row: nat)
    requires CanActAll(f, acts) && i < |acts|
  {
    AfterPrefix(f, acts, i);
    AfterPrefix(f, acts, i + 1);
    assert acts[..i + 1][..i] == acts[..i];
    acts[i].MarkAct? && After(f, acts[..i]).held[acts[i].relay].todo[0] == row
  }

  /** `acts[i]` fetches row `row` for `relay`, which is still PENDING then. */
  predicate FetchesAt(f: Fleet, acts: seq<Act>, i: nat, relay: nat, row: nat)
    requires CanActAll(f, acts) && i < |acts|
  {
    AfterPrefix(f, acts, i);
    var now := After(f, acts[..i]);
    && acts[i].FetchAct? && acts[i].relay == relay && row in FetchUnlocked(now.rows, acts[i].limit, acts[i].locked)
    && row < |now.rows| && now.rows[row].status == RowPending
  }

  lemma FetchesStill(f: Fleet, acts: seq<Act>, a: Act, i: nat, relay: nat, row: nat)
    requires CanActAll(f, acts) && CanAct(After(f, acts), a) && i < |acts| && FetchesAt(f, acts, i, relay, row)
    ensures CanActAll(f, acts + [a]) && FetchesAt(f, acts + [a], i, relay, row)
  {
    AfterSnoc(f, acts, a);
    assert (acts + [a])[..i] == acts[..i];
  }

  /** Whatever a relay has in hand it fetched while the row was PENDING. */
  lemma {:induction false} HeldWasFetched(acts: seq<Act>, relay: nat, row: nat) returns (i: nat)
    requires CanActAll(EMPTY, acts) && relay in After(EMPTY, acts).held && row in After(EMPTY, acts).held[relay].todo
    ensures i < |acts| && FetchesAt(EMPTY, acts, i, relay, row)
    decreases |acts|
  {
    var init, last := acts[..|acts| - 1], acts[|acts| - 1];
    assert acts == init + [last];
    var f := After(EMPTY, init);
    if last.FetchAct? && last.relay == relay {
      UnlockedMembers(f.rows, last.locked, 0);
      i := |init|;
    } else {
      i := HeldWasFetched(init, relay, row);
      FetchesStill(EMPTY, init, last, i, relay, row);
    }
  }

  /** Only a mark makes a row PUBLISHED. */
  lemma OnlyMarksPublish(f: Fleet, a: Act, row: nat)
    requires CanAct(f, a) && row < |f.rows| && !IsPublished(f, row) && IsPublished(Do(f, a), row)
    ensures a.MarkAct? && f.held[a.relay].todo[0] == row
  {
  }

  /** A row that goes from PENDING to PUBLISHED was marked in between. */
  lemma {:induction false} PublishedWasMarked(f: Fleet, acts: seq<Act>, i: nat, row: nat) returns (m: nat)
    requires CanActAll(f, acts) && i <= |acts| && CanActAll(f, acts[..i])
    requires row < |After(f, acts[..i]).rows| && !IsPublished(After(f, acts[..i]), row)
             && IsPublished(After(f, acts), row)
    ensures i <= m < |acts| && MarksAt(f, acts, m, row)
    decreases |acts|
  {
    assert acts[..|acts|] == acts;
    var init, last := acts[..|acts| - 1], acts[|acts| - 1];
    assert init[..i] == acts[..i];
    if IsPublished(After(f, init), row) {
      m := PublishedWasMarked(f, init, i, row);
      assert init[..m] == acts[..m];
    } else {
      m := |init|;
      RowsSurvive(f, init, i, row);
      OnlyMarksPublish(After(f, init), last, row);
    }
  }

  lemma {:induction false} RowsSurvive(f: Fleet, acts: seq<Act>, i: nat, row: nat)
    requires CanActAll(f, acts) && i <= |acts| && CanActAll(f, acts[..i]) && row < |After(f, acts[..i]).rows|
    ensures row < |After(f, acts).rows|
    decreases |acts|
  {
    if i < |acts| {
      assert acts[..|acts| - 1][..i] == acts[..i];
      RowsSurvive(f, acts[..|acts| - 1], i, row);
    } else {
      assert acts[..i] == acts;
    }
  }

  predicate DoneWith(f: Fleet, relay: nat, row: nat) {
    IsPublished(f, row) && (relay in f.held ==> row !in f.held[relay].todo)
  }

  lemma DoneStays(f: Fleet, a: Act, relay: nat, row: nat)
    requires BatchesOk(f) && CanAct(f, a) && DoneWith(f, relay, row)
    ensures DoneWith(Do(f, a), relay, row)
  {
    if a.FetchAct? {
      UnlockedMembers(f.rows, a.locked, 0);
    }
  }

  lemma {:induction false} DoneForGood(f: Fleet, acts: seq<Act>, i: nat, relay: nat, row: nat)
    requires FleetInv(f) && CanActAll(f, acts) && i <= |acts| && CanActAll(f, acts[..i])
             && DoneWith(After(f, acts[..i]), relay, row)
    ensures DoneWith(After(f, acts), relay, row)
    decreases |acts|
  {
    if i < |acts| {
      var init := acts[..|acts| - 1];
      assert init[..i] == acts[..i];
      DoneForGood(f, init, i, relay, row);
      FleetInvHolds(f, init);
      DoneStays(After(f, init), acts[|acts| - 1], relay, row);
    } else {
      assert acts[..i] == acts;
    }
  }

  /** A relay that marks a row is done with it. */
  lemma MarkerIsDone(f: Fleet, a: Act)
    requires BatchesOk(f) && CanAct(f, a) && a.MarkAct?
    ensures DoneWith(Do(f, a), a.relay, f.held[a.relay].todo[0])
  {
  }

  /**
   A relay about to send a row that is already PUBLISHED fetched it before the mark, and another relay
   made the mark. The row locks of the two fetches do not exclude that.
   */
  lemma StaleSendOverlaps(acts: seq<Act>, relay: nat) returns (i: nat, m: nat)
    requires CanActAll(EMPTY, acts) && CanAct(After(EMPTY, acts), SendAct(relay))
    requires IsPublished(After(EMPTY, acts), After(EMPTY, acts).held[relay].todo[0])
    ensures var row := After(EMPTY, acts).held[relay].todo[0];
            && i < m < |acts| && FetchesAt(EMPTY, acts, i, relay, row)
            && MarksAt(EMPTY, acts, m, row) && acts[m].relay != relay
  {
    var row := After(EMPTY, acts).held[relay].todo[0];
    i := HeldWasFetched(acts, relay, row);
    AfterPrefix(EMPTY, acts, i);
    m := PublishedWasMarked(EMPTY, acts, i, row);
    AfterPrefix(EMPTY, acts, m);
    AfterPrefix(EMPTY, acts, m + 1);
    assert acts[..m + 1][..m] == acts[..m];
    FleetInvHolds(EMPTY, acts[..m]);
    MarkerIsDone(After(EMPTY, acts[..m]), acts[m]);
    if acts[m].relay == relay {
      DoneForGood(EMPTY, acts, m + 1, relay, row);
    }
  }

  /** A fetched row whose publish raises while its message is queued. */
  lemma FailsQueued(f: Fleet, row: Row, counted: bool)
    requires f == Fleet([row], [], map[0 := Batch([0], false)], map[], {})
    ensures CanAct(f, FailAct(0, counted, true))
    ensures Do(f, FailAct(0, counted, true))
         == Fleet(if counted then MarkFailed([row], 0) else [row], [], map[], map[0 := [0]], {})
  {
    assert f.held - {0} == map[] && [] + [0] == [0];
  }

  lemma DeliversQueued(f: Fleet, row: Row)
    requires f == Fleet([row], [], map[], map[0 := [0]], {})
    ensures CanAct(f, DeliverAct(0, 0)) && Do(f, DeliverAct(0, 0)) == Fleet([row], [0], map[], map[0 := []], {0})
  {
    assert Without([0], 0) == [] && [] + [0] == [0] && f.queues[0 := []] == map[0 := []];
  }

  /** Row 0 is inserted and fetched, its publish raises, and the producer delivers the message later. */
  lemma FailedAndDelivered(env: Envelope, counted: bool) returns (acts: seq<Act>)
    ensures CanActAll(EMPTY, acts) && OnlyRelays(acts, 0)
    ensures var failed := if counted then MarkFailed([NewRow(env)], 0) else [NewRow(env)];
            After(EMPTY, acts) == Fleet(failed, [0], map[], map[0 := []], {0})
  {
    var row := NewRow(env);
    var insert, fetch, fail := InsertAct(env), FetchAct(0, 1, {}), FailAct(0, counted, true);
    FirstRowFetched([row]);
    AfterSnoc(EMPTY, [], insert);
    acts := [] + [insert];
    assert After(EMPTY, acts) == Fleet([row], [], map[], map[], {});
    AfterSnoc(EMPTY, acts, fetch);
    acts := acts + [fetch];
    var f := After(EMPTY, acts);
    FailsQueued(f, row, counted);
    AfterSnoc(EMPTY, acts, fail);
    acts := acts + [fail];
    DeliversQueued(After(EMPTY, acts), if counted then MarkFailed([row], 0)[0] else row);
    AfterSnoc(EMPTY, acts, DeliverAct(0, 0));
    acts := acts + [DeliverAct(0, 0)];
  }

  /** One relay: its publish of row 0 raises, the message is delivered later, and the next drain sends it again. */
  lemma FailedPublishIsLoggedTwice(env: Envelope, counted: bool) returns (acts: seq<Act>)
    ensures CanActAll(EMPTY, acts) && OnlyRelays(acts, 0)
    ensures After(EMPTY, acts).sends == [0, 0] && !IsPublished(After(EMPTY, acts), 0)
  {
    acts := FailedAndDelivered(env, counted);
    var f := After(EMPTY, acts);
    FirstRowFetched(f.rows);
    AfterSnoc(EMPTY, acts, FetchAct(0, 1, {}));
    acts := acts + [FetchAct(0, 1, {})];
    assert After(EMPTY, acts) == f.(held := map[0 := Batch([0], false)]);
    AfterSnoc(EMPTY, acts, SendAct(0));
    acts := acts + [SendAct(0)];
  }

  lemma FirstRowFetched(rows: seq<Row>)
    requires |rows| == 1 && rows[0].status == RowPending
    ensures FetchUnlocked(rows, 1, {}) == [0]
  {
    assert Unlocked(rows, {}, 1) == [];
  }

  // ----- The shape of the log of a single relay -----

  predicate OnlyRelay(a: Act, relay: nat) {
    match a
    case InsertAct(_) => true
    case FetchAct(r, _, locked) => r == relay && locked == {}
    case SendAct(r) => r == relay
    case MarkAct(r) => r == relay
    case FailAct(r, _, _) => r == relay
    case DeliverAct(r, _) => r == relay
    case DiscardAct(r, _) => r == relay
    case QuitAct(r) => r == relay
  }

  predicate OnlyRelays(acts: seq<Act>, relay: nat) {
    forall i :: 0 <= i < |acts| ==> OnlyRelay(acts[i], relay)
  }

  /** Rows are sent in creation order from the first one on, with only adjacent repeats. */
  predicate Stutters(sends: seq<nat>) {
    && (sends != [] ==> sends[0] == 0)
    && forall i :: 0 < i < |sends| ==> sends[i - 1] <= sends[i] <= sends[i - 1] + 1
  }

  /** The first `p` rows are PUBLISHED and no others; the last row sent is one of rows p-1 and p. */
  predicate Shape(f: Fleet, p: nat) {
    && p <= |f.rows|
    && (forall i :: 0 <= i < |f.rows| ==> (f.rows[i].status == RowPublished <==> i < p))
    && Stutters(f.sends)
    && (if f.sends == [] then p == 0 else p <= f.sends[|f.sends| - 1] + 1 <= p + 1 && f.sends[|f.sends| - 1] < |f.rows|)
  }

  predicate Consecutive(todo: seq<nat>, p: nat) {
    forall k :: 0 <= k < |todo| ==> todo[k] == p + k
  }

  predicate AllRow(queue: seq<nat>, p: nat) {
    forall k :: 0 <= k < |queue| ==> queue[k] == p
  }

  /** What the relay has in hand starts at the first row that is not PUBLISHED, and it has nothing else queued. */
  ghost predicate InHand(f: Fleet, relay: nat, p: nat) {
    && (forall r :: r in f.held || r in f.queues ==> r == relay)
    && AllRow(QueueOf(f, relay), p) && (QueueOf(f, relay) != [] ==> p < |f.rows|)
    && (relay in f.held ==> && Consecutive(f.held[relay].todo, p)
                            && (f.held[relay].sent ==>
                                  f.sends != [] && f.sends[|f.sends| - 1] == p && QueueOf(f, relay) == []))
  }

  lemma {:induction false} PendingIsSuffix(rows: seq<Row>, p: nat, from: nat)
    requires p <= |rows| && from <= |rows|
    requires forall i :: 0 <= i < |rows| ==> (rows[i].status == RowPublished <==> i < p)
    ensures Consecutive(Unlocked(rows, {}, from), if from < p then p else from)
    decreases |rows| - from
  {
    if from < |rows| {
      PendingIsSuffix(rows, p, from + 1);
    }
  }

  lemma LoggingKeepsShape(f: Fleet, p: nat)
    requires Shape(f, p) && p < |f.rows|
    ensures Shape(f.(sends := f.sends + [p]), p)
  {
  }

  lemma QueueKeepsShape(f: Fleet, a: Act, relay: nat, p: nat)
    requires Shape(f, p) && InHand(f, relay, p) && CanAct(f, a) && OnlyRelay(a, relay)
    requires a.FailAct? || a.DeliverAct? || a.DiscardAct?
    ensures Shape(Do(f, a), p) && InHand(Do(f, a), relay, p)
  {
    if a.FailAct? {
      QueueAfter(f, relay, QueueOf(f, relay) + [f.held[relay].todo[0]]);
    } else {
      QueueAfter(f, relay, Without(QueueOf(f, relay), a.entry));
      LoggingKeepsShape(f, p);
    }
  }

  lemma ActKeepsShape(f: Fleet, a: Act, relay: nat, p: nat) returns (q: nat)
    requires Shape(f, p) && InHand(f, relay, p) && CanAct(f, a) && OnlyRelay(a, relay)
    ensures p <= q && Shape(Do(f, a), q) && InHand(Do(f, a), relay, q)
  {
    q := if a.MarkAct? then p + 1 else p;
    assert !(a.FailAct? || a.DeliverAct? || a.DiscardAct?) ==> QueueOf(Do(f, a), relay) == QueueOf(f, relay);
    if a.FetchAct? {
      PendingIsSuffix(f.rows, p, 0);
    } else if a.SendAct? {
      LoggingKeepsShape(f, p);
    } else if a.FailAct? || a.DeliverAct? || a.DiscardAct? {
      QueueKeepsShape(f, a, relay, p);
    }
  }

  lemma {:induction false} ShapeHolds(acts: seq<Act>, relay: nat) returns (p: nat)
    requires CanActAll(EMPTY, acts) && OnlyRelays(acts, relay)
    ensures Shape(After(EMPTY, acts), p) && InHand(After(EMPTY, acts), relay, p)
    decreases |acts|
  {
    if acts == [] {
      p := 0;
      assert QueueOf(EMPTY, relay) == [];
    } else {
      var init := acts[..|acts| - 1];
      p := ShapeHolds(init, relay);
      p := ActKeepsShape(After(EMPTY, init), acts[|acts| - 1], relay, p);
    }
  }

  /** Every row up to the last one sent has been sent. */
  lemma {:induction false} SentUpTo(sends: seq<nat>, i: nat)
    requires Stutters(sends) && sends != [] && i <= sends[|sends| - 1]
    ensures i in sends
    decreases |sends|
  {
    var init := sends[..|sends| - 1];
    if i < sends[|sends| - 1] {
      SentUpTo(init, i);
    }
  }

  /**
   With one relay, through any publish failures, mark failures and crashes, and with rows inserted at any
   moment: the sends follow creation order with only adjacent repeats, the PUBLISHED rows are a prefix,
   and the rows sent are the PUBLISHED ones and at most the next one.
   */
  lemma LogShape(acts: seq<Act>, relay: nat) returns (p: nat)
    requires CanActAll(EMPTY, acts) && OnlyRelays(acts, relay)
    ensures var f := After(EMPTY, acts);
            && Shape(f, p)
            && (forall i :: 0 <= i < p ==> i in f.sends)
            && forall i :: i in f.sends ==> i <= p
  {
    p := ShapeHolds(acts, relay);
    var f := After(EMPTY, acts);
    forall i | 0 <= i < p ensures i in f.sends {
      SentUpTo(f.sends, i);
    }
    forall i | i in f.sends ensures i <= p {
      var k :| 0 <= k < |f.sends| && f.sends[k] == i;
      SendsAreSorted(f.sends, k, |f.sends| - 1);
    }
  }

  lemma {:induction false} SendsAreSorted(sends: seq<nat>, j: nat, k: nat)
    requires Stutters(sends) && j <= k < |sends|
    ensures sends[j] <= sends[k]
    decreases k
  {
    if j < k {
      SendsAreSorted(sends, j, k - 1);
    }
  }

  /** A single relay logs a row again exactly if an earlier dispatch logged it and ended without a mark. */
  lemma OneRelayRepeatsLostMarks(acts: seq<Act>, relay: nat, a: Act)
    requires CanActAll(EMPTY, acts) && OnlyRelays(acts, relay)
    requires CanAct(After(EMPTY, acts), a) && AddsRecord(a) && OnlyRelay(a, relay)
    ensures var f := After(EMPTY, acts);
            LoggedRow(f, a) in f.sends <==> LoggedRow(f, a) in f.lost
  {
    var p := ShapeHolds(acts, relay);
    SecondDispatchIsExact(acts, a);
  }

  // ----- A drain is a run of its relay -----

  lemma {:induction false} UnlockedIsPending(rows: seq<Row>, from: nat)
    requires from <= |rows|
    ensures Unlocked(rows, {}, from) == PendingFrom(rows, from)
    decreases |rows| - from
  {
    if from < |rows| {
      UnlockedIsPending(rows, from + 1);
    }
  }

  lemma ConcatLast(a: seq<Act>, b: seq<Act>)
    requires b != []
    ensures a + b == (a + b[..|b| - 1]) + [b[|b| - 1]]
  {
  }

  lemma {:induction false} AfterConcat(f: Fleet, a: seq<Act>, b: seq<Act>)
    requires CanActAll(f, a) && CanActAll(After(f, a), b)
    ensures CanActAll(f, a + b) && After(f, a + b) == After(After(f, a), b)
    decreases |b|
  {
    if b == [] {
      assert a + b == a;
    } else {
      ConcatLast(a, b);
      AfterConcat(f, a, b[..|b| - 1]);
      AfterSnoc(f, a + b[..|b| - 1], b[|b| - 1]);
    }
  }

  lemma AfterOne(f: Fleet, a: Act)
    requires CanAct(f, a)
    ensures CanActAll(f, [a]) && After(f, [a]) == Do(f, a)
  {
    AfterSnoc(f, [], a);
    assert [] + [a] == [a];
  }

  /** `acts` are acts of `relay` alone that take `f` to `f'`. */
  ghost predicate Takes(f: Fleet, acts: seq<Act>, relay: nat, f': Fleet) {
    CanActAll(f, acts) && After(f, acts) == f' && OnlyRelays(acts, relay)
  }

  lemma TakesOne(f: Fleet, a: Act, relay: nat)
    requires CanAct(f, a) && OnlyRelay(a, relay)
    ensures Takes(f, [a], relay, Do(f, a))
  {
    AfterOne(f, a);
  }

  lemma TakesThen(f: Fleet, a: seq<Act>, g: Fleet, b: seq<Act>, h: Fleet, relay: nat)
    requires Takes(f, a, relay, g) && Takes(g, b, relay, h)
    ensures Takes(f, a + b, relay, h)
  {
    AfterConcat(f, a, b);
  }

  /** Nothing in the relay's hands, and the outbox at `o`. */
  predicate Rests(f: Fleet, relay: nat, o: Outbox) {
    f.rows == o.rows && f.sends == o.sends && relay !in f.held && QueueOf(f, relay) == []
  }

  /** The relay is about to dispatch `todo`. */
  predicate AtWork(f: Fleet, relay: nat, todo: seq<nat>) {
    relay in f.held && f.held[relay] == Batch(todo, false) && InTable(todo, f.rows) && QueueOf(f, relay) == []
  }

  lemma SentAndMarked(f: Fleet, relay: nat, todo: seq<nat>) returns (acts: seq<Act>, f': Fleet)
    requires AtWork(f, relay, todo) && todo != []
    ensures Takes(f, acts, relay, f') && AtWork(f', relay, todo[1..])
    ensures f'.rows == MarkPublished(f.rows, todo[0]) && f'.sends == f.sends + [todo[0]]
  {
    var mid := Do(f, SendAct(relay));
    f' := Do(mid, MarkAct(relay));
    TakesOne(f, SendAct(relay), relay);
    TakesOne(mid, MarkAct(relay), relay);
    TakesThen(f, [SendAct(relay)], mid, [MarkAct(relay)], f', relay);
    acts := [SendAct(relay)] + [MarkAct(relay)];
  }

  lemma Quits(f: Fleet, relay: nat) returns (f': Fleet)
    requires relay in f.held && QueueOf(f, relay) == []
    ensures Takes(f, [QuitAct(relay)], relay, f') && Rests(f', relay, Outbox(f.rows, f.sends))
  {
    f' := Do(f, QuitAct(relay));
    TakesOne(f, QuitAct(relay), relay);
  }

  /** A failing publish, with its late delivery if its message was queued. */
  lemma Fails(f: Fleet, relay: nat, todo: seq<nat>, counted: bool, appended: bool) returns (acts: seq<Act>, f': Fleet)
    requires AtWork(f, relay, todo) && todo != []
    ensures Takes(f, acts, relay, f')
    ensures Rests(f', relay, Outbox(if counted then MarkFailed(f.rows, todo[0]) else f.rows,
                                    if appended then f.sends + [todo[0]] else f.sends))
  {
    var fail := FailAct(relay, counted, appended);
    f' := Do(f, fail);
    acts := [fail];
    TakesOne(f, fail, relay);
    if appended {
      var mid := f';
      assert QueueOf(mid, relay) == [todo[0]];
      f' := Do(mid, DeliverAct(relay, 0));
      TakesOne(mid, DeliverAct(relay, 0), relay);
      TakesThen(f, [fail], mid, [DeliverAct(relay, 0)], f', relay);
      acts := [fail] + [DeliverAct(relay, 0)];
    }
  }

  /** A send after which the relay stops: its mark fails, or the process dies. */
  lemma SentThenQuits(f: Fleet, relay: nat, todo: seq<nat>) returns (acts: seq<Act>, f': Fleet)
    requires AtWork(f, relay, todo) && todo != []
    ensures Takes(f, acts, relay, f') && Rests(f', relay, Outbox(f.rows, f.sends + [todo[0]]))
  {
    var mid := Do(f, SendAct(relay));
    TakesOne(f, SendAct(relay), relay);
    f' := Quits(mid, relay);
    TakesThen(f, [SendAct(relay)], mid, [QuitAct(relay)], f', relay);
    acts := [SendAct(relay)] + [QuitAct(relay)];
  }

  /** The loop of a drain with `todo` in hand, under any faults. */
  lemma {:induction false} DispatchIsActs(f: Fleet, relay: nat, todo: seq<nat>, faults: nat -> Fault, done: nat)
    returns (acts: seq<Act>, f': Fleet)
    requires AtWork(f, relay, todo)
    ensures Takes(f, acts, relay, f') && Rests(f', relay, DrainRows(Outbox(f.rows, f.sends), todo, faults, done).0)
    decreases |todo|
  {
    if todo == [] || faults(done).Crash? {
      f' := Quits(f, relay);
      acts := [QuitAct(relay)];
    } else if faults(done).PublishFails? {
      acts, f' := Fails(f, relay, todo, faults(done).counted, faults(done).appended);
    } else if faults(done).MarkFails? {
      acts, f' := SentThenQuits(f, relay, todo);
    } else {
      var first, mid := SentAndMarked(f, relay, todo);
      var rest;
      if faults(done).MarkLosesReply? {
        f' := Quits(mid, relay);
        rest := [QuitAct(relay)];
      } else {
        rest, f' := DispatchIsActs(mid, relay, todo[1..], faults, done + 1);
      }
      TakesThen(f, first, mid, rest, f', relay);
      acts := first + rest;
    }
  }

  predicate SameRows(a: seq<nat>, b: seq<nat>) {
    multiset(a) == multiset(b)
  }

  lemma WithoutCounts(queue: seq<nat>, entry: nat)
    requires entry < |queue|
    ensures multiset(Without(queue, entry)) == multiset(queue) - multiset{queue[entry]}
  {
    assert queue == queue[..entry] + ([queue[entry]] + queue[entry + 1..]);
  }

  /** The entry of the queue that is delivered first in the order `flushed`. */
  lemma FirstFlushed(flushed: seq<nat>, queue: seq<nat>) returns (entry: nat)
    requires flushed != [] && SameRows(flushed, queue)
    ensures entry < |queue| && queue[entry] == flushed[0] && SameRows(flushed[1..], Without(queue, entry))
  {
    assert flushed[0] in multiset(queue);
    entry :| 0 <= entry < |queue| && queue[entry] == flushed[0];
    WithoutCounts(queue, entry);
    WithoutCounts(flushed, 0);
    assert Without(flushed, 0) == flushed[1..];
  }

  /** A queued message is delivered or given up once: either way it leaves the queue, and no other message does. */
  lemma QueuedOnce(f: Fleet, a: Act)
    requires CanAct(f, a) && (a.DeliverAct? || a.DiscardAct?)
    ensures var q, f' := QueueOf(f, a.relay), Do(f, a);
            && multiset(QueueOf(f', a.relay)) == multiset(q) - multiset{q[a.entry]}
            && (forall r :: r != a.relay ==> QueueOf(f', r) == QueueOf(f, r))
            && f'.sends == f.sends + (if a.DeliverAct? then [q[a.entry]] else [])
            && f'.rows == f.rows && f'.held == f.held
  {
    QueueAfter(f, a.relay, Without(QueueOf(f, a.relay), a.entry));
    WithoutCounts(QueueOf(f, a.relay), a.entry);
    assert f.sends + [] == f.sends;
  }

  /** One message of the queue is delivered. */
  lemma Delivers(f: Fleet, relay: nat, entry: nat) returns (f': Fleet)
    requires relay !in f.held && entry < |QueueOf(f, relay)| && InTable(QueueOf(f, relay), f.rows)
    ensures Takes(f, [DeliverAct(relay, entry)], relay, f') && relay !in f'.held
    ensures f'.rows == f.rows && f'.sends == f.sends + [QueueOf(f, relay)[entry]]
    ensures QueueOf(f', relay) == Without(QueueOf(f, relay), entry) && InTable(QueueOf(f', relay), f.rows)
  {
    f' := Do(f, DeliverAct(relay, entry));
    TakesOne(f, DeliverAct(relay, entry), relay);
    QueueAfter(f, relay, Without(QueueOf(f, relay), entry));
  }

  /** The producer delivers what it still has queued, in any order. */
  lemma {:induction false} FlushIsActs(f: Fleet, relay: nat, flushed: seq<nat>) returns (acts: seq<Act>, f': Fleet)
    requires relay !in f.held && SameRows(flushed, QueueOf(f, relay)) && InTable(QueueOf(f, relay), f.rows)
    ensures Takes(f, acts, relay, f') && Rests(f', relay, Outbox(f.rows, f.sends + flushed))
    decreases |flushed|
  {
    if flushed == [] {
      acts, f' := [], f;
      NothingFlushed(QueueOf(f, relay));
    } else {
      var entry := FirstFlushed(flushed, QueueOf(f, relay));
      var mid := Delivers(f, relay, entry);
      var rest;
      rest, f' := FlushIsActs(mid, relay, flushed[1..]);
      TakesThen(f, [DeliverAct(relay, entry)], mid, rest, f', relay);
      assert (f.sends + [flushed[0]]) + flushed[1..] == f.sends + flushed;
      acts := [DeliverAct(relay, entry)] + rest;
    }
  }

  lemma NothingFlushed(queue: seq<nat>)
    requires SameRows([], queue)
    ensures queue == []
  {
    assert |multiset(queue)| == |queue|;
  }

  /**
   A drain of an idle relay, under any faults, is a run of acts of that relay, after its producer has
   delivered what it still had queued, in any order. Interleave those acts with anything else and you have a drain that
   is interrupted.
   */
  lemma DrainIsActs(f: Fleet, relay: nat, flushed: seq<nat>, limit: int, fetched: bool, faults: nat -> Fault)
    returns (acts: seq<Act>, f': Fleet)
    requires relay !in f.held && InTable(QueueOf(f, relay), f.rows) && SameRows(flushed, QueueOf(f, relay))
    ensures Takes(f, acts, relay, f')
    ensures Rests(f', relay, Drain(Outbox(f.rows, f.sends + flushed), limit, fetched, faults).0)
  {
    acts, f' := FlushIsActs(f, relay, flushed);
    if fetched && limit >= 0 {
      var idle, todo := f', Fetch(f.rows, limit);
      var fetch := FetchAct(relay, limit, {});
      UnlockedIsPending(f.rows, 0);
      UnlockedMembers(f.rows, {}, 0);
      TakesOne(idle, fetch, relay);
      var rest;
      rest, f' := DispatchIsActs(Do(idle, fetch), relay, todo, faults, 0);
      TakesThen(idle, [fetch], Do(idle, fetch), rest, f', relay);
      TakesThen(f, acts, idle, [fetch] + rest, f', relay);
      acts := acts + ([fetch] + rest);
    }
  }
}
