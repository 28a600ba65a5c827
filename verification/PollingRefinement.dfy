/** Turns of Payment's and Inventory's loop, as long as no handler raises, are runs of the system. */
module PollingRefinement {
  import opened Messages
  import opened SagaSystem
  import opened SagaInvariant
  import opened LoopRefinement
  import opened SagaProgress
  import P = PollingConsumer

  /** The offsets of `svc` in the system are those of its loop. */
  ghost predicate Reads(s: Sys, svc: Service, r: P.Reader) {
    forall t :: Offset(s.position, svc, t) == P.At(r.position, t) && Offset(s.committed, svc, t) == P.At(r.committed, t)
  }

  /** The handler that Payment or Inventory has for a topic. */
  function HandlerStep(t: Topic, forceFailure: bool, key: Id): Step {
    match t
    case TopicOrderCreated => CreatedStep(forceFailure, key)
    case TopicReservationFailed => ReservationFailedStep(key)
    case _ => CancelledStep(key)
  }

  /** What the loop can meet: a record to handle, nothing, or a restart; not an exception. */
  predicate CanTake(s: Sys, svc: Service, turn: P.Turn) {
    match turn
    case Idle | Restart => true
    case Handled(t) => HasNext(s, svc, t)
    case Uncommitted(t) => HasNext(s, svc, t)
    case Raised(_) => false
  }

  lemma HandlerAdvances(s: Sys, svc: Service, t: Topic, forceFailure: bool, key: Id)
    requires svc != OrderService && HasNext(s, svc, t) && key !in s.issued
    ensures Enabled(s, HandlerStep(t, forceFailure, key))
    ensures var s' := Next(s, HandlerStep(t, forceFailure, key));
            && s'.committed == s.committed && s'.position == Advance(s, svc, t) && s'.logs == s.logs
            && s'.order == s.order
  {
  }

  /** `s'` is `s` after the handler's transaction, up to the committed offsets. */
  ghost predicate HandlerRan(s: Sys, s': Sys, st: Step) {
    Enabled(s, st) && s' == Next(s, st).(committed := s'.committed)
  }

  ghost predicate OthersUnread(s: Sys, s': Sys, svc: Service) {
    forall c, t :: c != svc ==>
      && Offset(s'.position, c, t) == Offset(s.position, c, t)
      && Offset(s'.committed, c, t) == Offset(s.committed, c, t)
  }

  lemma HandlingIsARun(s: Sys, svc: Service, r: P.Reader, t: Topic, forceFailure: bool, key: Id)
    requires svc != OrderService && key !in s.issued && Reads(s, svc, r) && HasNext(s, svc, t)
    ensures var st := HandlerStep(t, forceFailure, key);
            && CanRun(s, [st]) && HandlerRan(s, Run(s, [st]), st)
            && Reads(Run(s, [st]), svc, P.Take(r, P.Uncommitted(t))) && OthersUnread(s, Run(s, [st]), svc)
            && Run(s, [st]).committed == s.committed
            && Offset(Run(s, [st]).position, svc, t) == Offset(s.position, svc, t) + 1
  {
    HandlerAdvances(s, svc, t, forceFailure, key);
    RunOne(s, HandlerStep(t, forceFailure, key));
    OffsetAfter(s.position, svc, t, Offset(s.position, svc, t) + 1,
                Next(s, HandlerStep(t, forceFailure, key)).position);
  }

  lemma CommittingIsARun(s: Sys, svc: Service, r: P.Reader, t: Topic)
    requires Reads(s, svc, r) && Consumes(svc, t) && Offset(s.committed, svc, t) <= Offset(s.position, svc, t)
    ensures var st := CommitStep(svc, t, Offset(s.position, svc, t));
            && CanRun(s, [st]) && Run(s, [st]) == s.(committed := Run(s, [st]).committed)
            && Reads(Run(s, [st]), svc, r.(committed := r.committed[t := P.At(r.position, t)]))
            && OthersUnread(s, Run(s, [st]), svc)
  {
    RunOne(s, CommitStep(svc, t, Offset(s.position, svc, t)));
    OffsetAfter(s.committed, svc, t, Offset(s.position, svc, t),
                Next(s, CommitStep(svc, t, Offset(s.position, svc, t))).committed);
  }

  lemma HandledIsARun(s: Sys, svc: Service, r: P.Reader, t: Topic, forceFailure: bool, key: Id)
    returns (steps: seq<Step>)
    requires svc != OrderService && key !in s.issued && Reads(s, svc, r) && HasNext(s, svc, t)
    requires Offset(s.committed, svc, t) <= Offset(s.position, svc, t)
    ensures CanRun(s, steps) && HandlerRan(s, Run(s, steps), HandlerStep(t, forceFailure, key))
    ensures Reads(Run(s, steps), svc, P.Take(r, P.Handled(t))) && OthersUnread(s, Run(s, steps), svc)
  {
    var st := HandlerStep(t, forceFailure, key);
    HandlingIsARun(s, svc, r, t, forceFailure, key);
    var s1 := Run(s, [st]);
    var commit := CommitStep(svc, t, Offset(s1.position, svc, t));
    CommittingIsARun(s1, svc, P.Take(r, P.Uncommitted(t)), t);
    RunConcat(s, [st], [commit]);
    steps := [st] + [commit];
  }

  lemma RestartIsARun(s: Sys, svc: Service, r: P.Reader) returns (steps: seq<Step>)
    requires OffsetsOk(s) && Reads(s, svc, r)
    ensures CanRun(s, steps) && Run(s, steps) == s.(position := Run(s, steps).position)
    ensures Reads(Run(s, steps), svc, P.Take(r, P.Restart)) && OthersUnread(s, Run(s, steps), svc)
  {
    forall t ensures t in ALL_TOPICS { EveryTopic(t); }
    forall t ensures Offset(s.committed, svc, t) <= Offset(s.position, svc, t) {
      assert Committed(s, svc, t) <= Position(s, svc, t);
    }
    steps := RewindIsARun(s, svc, r.committed, ALL_TOPICS);
  }

  /**
   A handled record is the handler's transaction, with its commit if that took effect; a restart is a
   rewind to the committed offsets and changes no table.
   */
  lemma TurnIsARun(s: Sys, svc: Service, r: P.Reader, turn: P.Turn, forceFailure: bool, key: Id)
    returns (steps: seq<Step>)
    requires svc != OrderService && OffsetsOk(s) && key !in s.issued && Reads(s, svc, r) && CanTake(s, svc, turn)
    ensures CanRun(s, steps) && Reads(Run(s, steps), svc, P.Take(r, turn)) && OthersUnread(s, Run(s, steps), svc)
    ensures if turn.Handled? || turn.Uncommitted?
            then HandlerRan(s, Run(s, steps), HandlerStep(turn.topic, forceFailure, key))
            else Run(s, steps) == s.(position := Run(s, steps).position)
  {
    match turn {
      case Idle =>
        steps := [];
      case Uncommitted(t) =>
        HandlingIsARun(s, svc, r, t, forceFailure, key);
        steps := [HandlerStep(t, forceFailure, key)];
      case Handled(t) =>
        steps := HandledIsARun(s, svc, r, t, forceFailure, key);
      case Restart =>
        steps := RestartIsARun(s, svc, r);
    }
  }
}
