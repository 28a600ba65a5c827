/** The order saga state machine. */
module OrderDomain {
  import opened Messages

  datatype Status = Pending | PaymentOK | Confirmed | Compensating | Cancelled {
    predicate IsTerminal() {
      this == Confirmed || this == Cancelled
    }
  }

  datatype Trigger =
    | PaymentProcessed
    | PaymentFailed
    | InventoryReserved
    | InventoryReservationFailed
    | PaymentRefunded

  /** Event types a transition asks to be published. */
  datatype Emission = EmitOrderCancelled

  datatype Result =
    | Ok(next: Status, changed: bool, emit: seq<Emission>)
    | ErrInvalidTransition
    | ErrPrematureEvent

  function Apply(cur: Status, t: Trigger): (r: Result)
    // Only the entry into CANCELLED is announced, and it is announced once.
    ensures r.Ok? ==> r.emit == (if r.changed && r.next == Cancelled then [EmitOrderCancelled] else [])
    ensures r.Ok? ==> (r.changed <==> r.next != cur)
  {
    match cur
    case Pending => (
      match t
      case PaymentProcessed => Ok(PaymentOK, true, [])
      case PaymentFailed => Ok(Cancelled, true, [EmitOrderCancelled])
      case InventoryReservationFailed => Ok(Cancelled, true, [EmitOrderCancelled])
      case InventoryReserved => ErrPrematureEvent
      case PaymentRefunded => ErrPrematureEvent
    )
    case PaymentOK => (
      match t
      case InventoryReserved => Ok(Confirmed, true, [])
      case InventoryReservationFailed => Ok(Compensating, true, [])
      case PaymentProcessed => Ok(PaymentOK, false, [])
      case PaymentRefunded => ErrPrematureEvent
      case PaymentFailed => ErrInvalidTransition
    )
    case Compensating => (
      match t
      case PaymentRefunded => Ok(Cancelled, true, [EmitOrderCancelled])
      case InventoryReservationFailed => Ok(Compensating, false, [])
      case PaymentProcessed | PaymentFailed | InventoryReserved => ErrInvalidTransition
    )
    case Confirmed | Cancelled => Ok(cur, false, [])
  }

  function TopicTrigger(t: Topic): Option<Trigger> {
    match t
    case TopicPaymentProcessed => Some(PaymentProcessed)
    case TopicPaymentFailed => Some(PaymentFailed)
    case TopicInventoryReserved => Some(InventoryReserved)
    case TopicReservationFailed => Some(InventoryReservationFailed)
    case TopicPaymentRefunded => Some(PaymentRefunded)
    case TopicOrderCreated | TopicOrderCancelled | TopicInventoryReleased => None
  }

  // ----- Classification of events against every future of the order -----

  /** The status after a trigger; a rejected trigger leaves it alone. */
  function After(cur: Status, t: Trigger): Status {
    var r := Apply(cur, t);
    if r.Ok? then r.next else cur
  }

  function AfterAll(cur: Status, ts: seq<Trigger>): Status
    decreases |ts|
  {
    if ts == [] then cur else AfterAll(After(cur, ts[0]), ts[1..])
  }

  predicate TakesEffect(cur: Status, t: Trigger) {
    Apply(cur, t).Ok? && Apply(cur, t).changed
  }

  predicate TakesEffectAfter(cur: Status, ts: seq<Trigger>, t: Trigger) {
    TakesEffect(AfterAll(cur, ts), t)
  }

  /** An event that is dropped as invalid or absorbed as a no-op can be forgotten safely. */
  lemma {:induction false} AbsorbedForever(cur: Status, t: Trigger, ts: seq<Trigger>)
    requires !TakesEffect(cur, t) && !Apply(cur, t).ErrPrematureEvent?
    ensures !TakesEffectAfter(cur, ts, t)
    decreases |ts|
  {
    if ts != [] {
      AbsorbedForever(After(cur, ts[0]), t, ts[1..]);
    }
  }

  lemma AfterTwo(cur: Status, t: Trigger, u: Trigger)
    ensures AfterAll(cur, [t]) == After(cur, t)
    ensures AfterAll(cur, [t, u]) == After(After(cur, t), u)
  {
    assert [t, u][1..] == [u] && [u][1..] == [] && [t][1..] == [];
    assert AfterAll(After(cur, t), [u]) == After(After(cur, t), u);
  }

  /** What makes a premature event acceptable. */
  lemma PrematureHasAFuture(cur: Status, t: Trigger) returns (ts: seq<Trigger>)
    requires Apply(cur, t).ErrPrematureEvent?
    ensures TakesEffectAfter(cur, ts, t)
  {
    if t == InventoryReserved {
      AfterTwo(cur, PaymentProcessed, PaymentProcessed);
      ts := [PaymentProcessed];
    } else if cur == PaymentOK {
      AfterTwo(cur, InventoryReservationFailed, PaymentProcessed);
      ts := [InventoryReservationFailed];
    } else {
      AfterTwo(cur, PaymentProcessed, InventoryReservationFailed);
      ts := [PaymentProcessed, InventoryReservationFailed];
    }
  }

  /** "Premature" is exactly "without effect now, but with effect in some future". */
  lemma PrematureIsExact(cur: Status, t: Trigger)
    ensures Apply(cur, t).ErrPrematureEvent?
       <==> !TakesEffect(cur, t) && exists ts :: TakesEffectAfter(cur, ts, t)
  {
    if Apply(cur, t).ErrPrematureEvent? {
      var ts := PrematureHasAFuture(cur, t);
    } else if !TakesEffect(cur, t) {
      forall ts ensures !TakesEffectAfter(cur, ts, t) {
        AbsorbedForever(cur, t, ts);
      }
    }
  }

  /**
   A trigger is absorbed as a no-op exactly if the order is terminal, or if it is the very trigger that brings
   an order to the status it has.
   */
  lemma ReplayIsExact(cur: Status, t: Trigger)
    ensures Apply(cur, t).Ok? && !TakesEffect(cur, t)
       <==> cur.IsTerminal() || exists before :: TakesEffect(before, t) && After(before, t) == cur
  {
    if cur == PaymentOK && t == PaymentProcessed {
      assert TakesEffect(Pending, t) && After(Pending, t) == cur;
    }
    if cur == Compensating && t == InventoryReservationFailed {
      assert TakesEffect(PaymentOK, t) && After(PaymentOK, t) == cur;
    }
  }

  /** How many status changes a trigger sequence causes. */
  function Changes(cur: Status, ts: seq<Trigger>): nat
    decreases |ts|
  {
    if ts == [] then 0
    else (if TakesEffect(cur, ts[0]) then 1 else 0) + Changes(After(cur, ts[0]), ts[1..])
  }

  function MostChanges(cur: Status): nat {
    match cur
    case Pending => 3
    case PaymentOK => 2
    case Compensating => 1
    case Confirmed | Cancelled => 0
  }

  lemma {:induction false} ChangesAreBounded(cur: Status, ts: seq<Trigger>)
    ensures Changes(cur, ts) + MostChanges(AfterAll(cur, ts)) <= MostChanges(cur)
    decreases |ts|
  {
    if ts != [] {
      ChangesAreBounded(After(cur, ts[0]), ts[1..]);
    }
  }

  /** Terminal statuses are exactly those that no sequence of events ever changes. */
  lemma TerminalIsExact(cur: Status)
    ensures cur.IsTerminal() <==> forall ts :: AfterAll(cur, ts) == cur
  {
    if cur.IsTerminal() {
      forall ts ensures AfterAll(cur, ts) == cur {
        StaysTerminal(cur, ts);
      }
    } else {
      var t := if cur == Pending then PaymentProcessed
               else if cur == PaymentOK then InventoryReserved else PaymentRefunded;
      AfterTwo(cur, t, t);
      assert AfterAll(cur, [t]) != cur;
    }
  }

  lemma {:induction false} StaysTerminal(cur: Status, ts: seq<Trigger>)
    requires cur.IsTerminal()
    ensures AfterAll(cur, ts) == cur
    decreases |ts|
  {
    if ts != [] {
      StaysTerminal(cur, ts[1..]);
    }
  }
}
