/** The consumer loops of Payment and Inventory: one record at a time, commit after success. */
module PollingConsumer {
  import opened Messages

  /** One turn of the loop, or a restart of the process. */
  datatype Turn =
    | Idle                      // nothing polled, end of partition, or a broker error
    | Handled(topic: Topic)     // the handler returned and its offset was committed
    | Uncommitted(topic: Topic) // the handler returned but the commit did not take effect
    | Raised(topic: Topic)      // the handler raised: no commit, and no seek back
    | Restart                   // the next process resumes from the committed offsets

  /** Offsets, and the records whose handler has returned normally. */
  datatype Reader = Reader(position: map<Topic, nat>, committed: map<Topic, nat>, handled: set<(Topic, nat)>)

  const START := Reader(map[], map[], {})

  function At(m: map<Topic, nat>, t: Topic): nat {
    if t in m then m[t] else 0
  }

  function Take(r: Reader, turn: Turn): Reader {
    match turn
    case Idle => r
    case Handled(t) =>
      var n := At(r.position, t);
      Reader(r.position[t := n + 1], r.committed[t := n + 1], r.handled + {(t, n)})
    case Uncommitted(t) =>
      var n := At(r.position, t);
      Reader(r.position[t := n + 1], r.committed, r.handled + {(t, n)})
    case Raised(t) => r.(position := r.position[t := At(r.position, t) + 1])
    case Restart => r.(position := r.committed)
  }

  function After(turns: seq<Turn>): Reader {
    if turns == [] then START else Take(After(turns[..|turns| - 1]), turns[|turns| - 1])
  }

  /** The same from any reader on, first turn first. */
  function Resume(r: Reader, turns: seq<Turn>): Reader
    decreases |turns|
  {
    if turns == [] then r else Resume(Take(r, turns[0]), turns[1..])
  }

  lemma {:induction false} ResumeConcat(r: Reader, a: seq<Turn>, b: seq<Turn>)
    ensures Resume(r, a + b) == Resume(Resume(r, a), b)
    decreases |a|
  {
    if a == [] {
      assert a + b == b;
    } else {
      assert (a + b)[1..] == a[1..] + b;
      ResumeConcat(Take(r, a[0]), a[1..], b);
    }
  }

  lemma {:induction false} AfterIsResume(turns: seq<Turn>)
    ensures After(turns) == Resume(START, turns)
  {
    if turns != [] {
      var init, last := turns[..|turns| - 1], turns[|turns| - 1];
      AfterIsResume(init);
      ResumeConcat(START, init, [last]);
      assert turns == init + [last];
      assert [last][1..] == [];
    }
  }

  /** The loop itself; `turns` is what the broker, the handler and the operator make of each turn. */
  class Consumer {
    var position: map<Topic, nat>
    var committed: map<Topic, nat>
    ghost var handled: set<(Topic, nat)>

    ghost function State(): Reader
      reads this
    {
      Reader(position, committed, handled)
    }

    constructor ()
      ensures State() == START
    {
      position, committed, handled := map[], map[], {};
    }

    method Run(turns: seq<Turn>)
      requires State() == START
      modifies this
      ensures State() == After(turns)
    {
      var i := 0;
      while i < |turns|
        invariant 0 <= i <= |turns|
        invariant State() == After(turns[..i])
      {
        assert turns[..i + 1][..i] == turns[..i];
        match turns[i] {
          case Idle =>
          case Restart =>
            position := committed;
          case Raised(t) =>
            position := position[t := (if t in position then position[t] else 0) + 1];
          case Uncommitted(t) =>
            var n := if t in position then position[t] else 0;
            position := position[t := n + 1];
            handled := handled + {(t, n)};
          case Handled(t) =>
            var n := if t in position then position[t] else 0;
            position := position[t := n + 1];
            handled := handled + {(t, n)};
            committed := committed[t := n + 1];
        }
        i := i + 1;
      }
      assert turns[..i] == turns;
    }
  }

  // ----- Records that are skipped -----

  /** Below the committed offset, yet never handled. */
  predicate Skipped(turns: seq<Turn>, t: Topic, n: nat) {
    n < At(After(turns).committed, t) && (t, n) !in After(turns).handled
  }

  /** The record at offset `n` of `t` is the one that turn `i` polls. */
  predicate Polls(turns: seq<Turn>, i: nat, t: Topic, n: nat)
    requires i < |turns|
  {
    At(After(turns[..i]).position, t) == n
  }

  predicate NoRestart(turns: seq<Turn>, i: nat, j: nat)
    requires i <= j <= |turns|
  {
    forall k :: i <= k < j ==> turns[k] != Restart
  }

  /** Turn `i` raised on record `n` of `t`, and its process is still running at `j`. */
  ghost predicate RaisedOn(turns: seq<Turn>, i: nat, j: nat, t: Topic, n: nat)
    requires i < j <= |turns|
  {
    turns[i] == Raised(t) && Polls(turns, i, t, n) && NoRestart(turns, i, j)
  }

  lemma {:induction false} CommittedIsBelowPosition(turns: seq<Turn>, t: Topic)
    ensures At(After(turns).committed, t) <= At(After(turns).position, t)
  {
    if turns != [] {
      CommittedIsBelowPosition(turns[..|turns| - 1], t);
    }
  }

  lemma RaisedOnExtends(turns: seq<Turn>, turn: Turn, i: nat, t: Topic, n: nat)
    requires i < |turns| && RaisedOn(turns, i, |turns|, t, n) && turn != Restart
    ensures RaisedOn(turns + [turn], i, |turns| + 1, t, n)
  {
    assert (turns + [turn])[..i] == turns[..i];
  }

  /** A record that this process has passed without handling or committing it was raised on. */
  lemma {:induction false} PassedWasRaised(turns: seq<Turn>, t: Topic, n: nat) returns (i: nat)
    requires At(After(turns).committed, t) <= n < At(After(turns).position, t)
    requires (t, n) !in After(turns).handled
    ensures i < |turns| && RaisedOn(turns, i, |turns|, t, n)
  {
    var init, last := turns[..|turns| - 1], turns[|turns| - 1];
    assert turns == init + [last];
    if last == Raised(t) && At(After(init).position, t) == n {
      i := |turns| - 1;
    } else {
      i := PassedWasRaised(init, t, n);
      RaisedOnExtends(init, last, i, t, n);
    }
  }

  /** The handler raised on `n`, and the same process then committed a later record of the topic. */
  ghost predicate PassedOver(turns: seq<Turn>, t: Topic, n: nat) {
    exists i, j, m :: 0 <= i < j < |turns| && n < m
      && RaisedOn(turns, i, j, t, n) && turns[j] == Handled(t) && Polls(turns, j, t, m)
  }

  lemma PassedOverExtends(turns: seq<Turn>, turn: Turn, t: Topic, n: nat)
    requires PassedOver(turns, t, n)
    ensures PassedOver(turns + [turn], t, n)
  {
    var i, j, m :| 0 <= i < j < |turns| && n < m
      && RaisedOn(turns, i, j, t, n) && turns[j] == Handled(t) && Polls(turns, j, t, m);
    var more := turns + [turn];
    assert more[..i] == turns[..i] && more[..j] == turns[..j];
    assert RaisedOn(more, i, j, t, n) && more[j] == Handled(t) && Polls(more, j, t, m);
  }

  lemma {:induction false} SkippedWasPassedOver(turns: seq<Turn>, t: Topic, n: nat)
    requires Skipped(turns, t, n)
    ensures PassedOver(turns, t, n)
  {
    var init, last := turns[..|turns| - 1], turns[|turns| - 1];
    assert turns == init + [last];
    if Skipped(init, t, n) {
      SkippedWasPassedOver(init, t, n);
      PassedOverExtends(init, last, t, n);
    } else {
      var i := PassedWasRaised(init, t, n);
      var j, m := |init|, At(After(init).position, t);
      assert turns[..i] == init[..i];
      assert RaisedOn(turns, i, j, t, n) && turns[j] == Handled(t) && Polls(turns, j, t, m);
    }
  }

  lemma {:induction false} CommittedGrows(turns: seq<Turn>, i: nat, t: Topic)
    requires i <= |turns|
    ensures At(After(turns[..i]).committed, t) <= At(After(turns).committed, t)
    decreases |turns|
  {
    if i == |turns| {
      assert turns[..i] == turns;
    } else {
      var init := turns[..|turns| - 1];
      assert init[..i] == turns[..i];
      CommittedGrows(init, i, t);
      CommittedIsBelowPosition(init, t);
    }
  }

  /** A commit by turn `j` of record `m` puts every earlier record below the committed offset. */
  lemma PassedOverIsBelow(turns: seq<Turn>, t: Topic, n: nat)
    requires PassedOver(turns, t, n)
    ensures n < At(After(turns).committed, t)
  {
    var i, j, m :| 0 <= i < j < |turns| && n < m
      && RaisedOn(turns, i, j, t, n) && turns[j] == Handled(t) && Polls(turns, j, t, m);
    assert turns[..j + 1][..j] == turns[..j];
    CommittedGrows(turns, j + 1, t);
  }

  /**
   A record is skipped exactly when its handler raised, a later record of the same topic was
   committed before a restart, and no delivery of it succeeded.
   */
  lemma SkippedIsExact(turns: seq<Turn>, t: Topic, n: nat)
    ensures Skipped(turns, t, n) <==> PassedOver(turns, t, n) && (t, n) !in After(turns).handled
  {
    if Skipped(turns, t, n) {
      SkippedWasPassedOver(turns, t, n);
    } else if PassedOver(turns, t, n) {
      PassedOverIsBelow(turns, t, n);
    }
  }

  /** Skipped is for good: no continuation, with any number of restarts, delivers the record again. */
  lemma {:induction false} SkippedForGood(turns: seq<Turn>, more: seq<Turn>, t: Topic, n: nat)
    requires Skipped(turns, t, n)
    ensures Skipped(turns + more, t, n)
    decreases |more|
  {
    if more == [] {
      assert turns + more == turns;
    } else {
      var init := turns + more[..|more| - 1];
      SkippedForGood(turns, more[..|more| - 1], t, n);
      assert (turns + more)[..|turns + more| - 1] == init;
      CommittedIsBelowPosition(init, t);
    }
  }

  /** Without handler exceptions, everything below the committed offset has been handled. */
  lemma NoExceptionNoSkip(turns: seq<Turn>, t: Topic, n: nat)
    requires forall i :: 0 <= i < |turns| ==> !turns[i].Raised?
    ensures n < At(After(turns).committed, t) ==> (t, n) in After(turns).handled
  {
    if Skipped(turns, t, n) {
      SkippedWasPassedOver(turns, t, n);
    }
  }

  /** One exception is enough: its record is skipped when the next one of the topic is committed. */
  lemma OneExceptionSkips(t: Topic)
    ensures Skipped([Raised(t), Handled(t)], t, 0)
  {
    var turns := [Raised(t), Handled(t)];
    assert turns[..1] == [Raised(t)] && [Raised(t)][..0] == [];
    assert After([Raised(t)]) == Reader(map[t := 1], map[], {});
    assert After(turns) == Reader(map[t := 2], map[t := 2], {(t, 1)});
  }
}
