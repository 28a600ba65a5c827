/** Relays and offsets keep the joint invariant: they do not touch any saga. */
module BrokerSteps {
  import opened Messages
  import opened SagaSystem
  import opened SagaView
  import opened SagaInvariant
  import opened OrderSteps

  // ----- Sends -----

  lemma SendKeepsRecords(s: Sys, svc: Service, row: nat)
    requires ChannelInv(s) && row < |Outbox(s, svc)|
    ensures var s' := Send(s, Outbox(s, svc)[row].env); RowsOk(s') && LogsOk(s') && PublishedOk(s')
  {
    var env := Outbox(s, svc)[row].env;
    var s' := Send(s, env);
    assert TableOk(s.issued, Outbox(s, svc), svc);
    EmittedHasRow(Outbox(s, svc), row);
    forall c ensures Outbox(s', c) == Outbox(s, c) {}
    forall c ensures TableOk(s'.issued, Outbox(s', c), c) {
      assert TableOk(s.issued, Outbox(s, c), c);
    }
    forall t, i | 0 <= i < |Log(s', t)| ensures RecordOk(s', t, Log(s', t)[i]) {
      if i < |Log(s, t)| {
        assert RecordOk(s, t, Log(s, t)[i]);
      } else {
        assert t == env.topic && Log(s', t)[i] == env;
      }
    }
  }

  lemma SendKeepsOffsets(s: Sys, env: Envelope)
    requires ChannelInv(s)
    ensures OffsetsOk(Send(s, env)) && HandledOk(Send(s, env))
  {
    var s' := Send(s, env);
    forall c, t, i | Consumes(c, t) && 0 <= i < Position(s', c, t) && i < |Log(s', t)|
      ensures HandledBy(s', c, Log(s', t)[i])
    {
      assert Position(s, c, t) <= |Log(s, t)|;
      assert HandledBy(s, c, Log(s, t)[i]);
    }
    forall c, t ensures Committed(s', c, t) <= Position(s', c, t) <= |Log(s', t)| {
      assert Committed(s, c, t) <= Position(s, c, t) <= |Log(s, t)|;
    }
  }

  lemma SendStepKeeps(s: Sys, svc: Service, row: nat)
    requires Inv(s) && Enabled(s, SendStep(svc, row))
    ensures Inv(Next(s, SendStep(svc, row)))
  {
    var env := Outbox(s, svc)[row].env;
    SendKeepsRecords(s, svc, row);
    SendKeepsOffsets(s, env);
    forall id ensures ViewOk(ViewOf(Send(s, env), id), id) {
      assert ViewOf(Send(s, env), id) == ViewOf(s, id);
    }
  }

  // ----- Row bookkeeping -----

  /** A row's status or attempt counter changes; what has been emitted does not. */
  lemma BookkeepingKeeps(s: Sys, s': Sys, svc: Service, row: nat, r: Row)
    requires Inv(s) && row < |Outbox(s, svc)| && r.env == Outbox(s, svc)[row].env
    requires r.status == RowPublished ==> r.env in Log(s, r.env.topic)
    requires s' == WithOutbox(s, svc, Outbox(s, svc)[row := r])
    ensures Inv(s')
  {
    forall c ensures SameEnvelopes(Outbox(s, c), Outbox(s', c)) {}
    forall c, id, t ensures Emitted(Outbox(s', c), id, t) == Emitted(Outbox(s, c), id, t) {
      EmittedSame(Outbox(s, c), Outbox(s', c), id, t);
    }
    BookkeepingChannels(s, s');
    BookkeepingViews(s, s');
  }

  ghost predicate SameEmissions(s: Sys, s': Sys) {
    forall c, id, t :: Emitted(Outbox(s', c), id, t) == Emitted(Outbox(s, c), id, t)
  }

  lemma BookkeepingChannels(s: Sys, s': Sys)
    requires ChannelInv(s) && SameEmissions(s, s')
    requires forall c :: SameEnvelopes(Outbox(s, c), Outbox(s', c))
    requires forall c, i :: 0 <= i < |Outbox(s', c)| && i < |Outbox(s, c)| && Outbox(s', c)[i].status == RowPublished ==>
               Outbox(s', c)[i] == Outbox(s, c)[i] || Outbox(s', c)[i].env in Log(s, Outbox(s', c)[i].env.topic)
    requires s'.logs == s.logs && s'.position == s.position && s'.committed == s.committed && s'.issued == s.issued
    requires Remembers(s, s')
    ensures ChannelInv(s')
  {
    forall c ensures TableOk(s'.issued, Outbox(s', c), c) {
      assert TableOk(s.issued, Outbox(s, c), c) && SameEnvelopes(Outbox(s, c), Outbox(s', c));
    }
    forall t, i | 0 <= i < |Log(s', t)| ensures RecordOk(s', t, Log(s', t)[i]) {
      assert RecordOk(s, t, Log(s, t)[i]);
    }
    TransactKeepsHandled(s, s');
  }

  lemma BookkeepingView(s: Sys, s': Sys, id: Id)
    requires s' == s.(order := s.order.(outbox := s'.order.outbox), payment := s.payment.(outbox := s'.payment.outbox),
                      inventory := s.inventory.(outbox := s'.inventory.outbox))
    requires forall t :: Emitted(s'.order.outbox, id, t) == Emitted(s.order.outbox, id, t)
    requires forall t :: Emitted(s'.payment.outbox, id, t) == Emitted(s.payment.outbox, id, t)
    requires forall t :: Emitted(s'.inventory.outbox, id, t) == Emitted(s.inventory.outbox, id, t)
    ensures ViewOf(s', id) == ViewOf(s, id)
  {
  }

  lemma BookkeepingViews(s: Sys, s': Sys)
    requires ViewsOk(s) && SameEmissions(s, s')
    requires s' == s.(order := s.order.(outbox := s'.order.outbox), payment := s.payment.(outbox := s'.payment.outbox),
                      inventory := s.inventory.(outbox := s'.inventory.outbox))
    ensures ViewsOk(s')
  {
    forall id ensures ViewOk(ViewOf(s', id), id) {
      forall t ensures Emitted(s'.order.outbox, id, t) == Emitted(s.order.outbox, id, t) {
        assert Outbox(s', OrderService) == s'.order.outbox && Outbox(s, OrderService) == s.order.outbox;
      }
      forall t ensures Emitted(s'.payment.outbox, id, t) == Emitted(s.payment.outbox, id, t) {
        assert Outbox(s', PaymentService) == s'.payment.outbox && Outbox(s, PaymentService) == s.payment.outbox;
      }
      forall t ensures Emitted(s'.inventory.outbox, id, t) == Emitted(s.inventory.outbox, id, t) {
        assert Outbox(s', InventoryService) == s'.inventory.outbox && Outbox(s, InventoryService) == s.inventory.outbox;
      }
      BookkeepingView(s, s', id);
    }
  }

  // ----- Offsets -----

  lemma CommitStepKeeps(s: Sys, svc: Service, topic: Topic, upTo: nat)
    requires Inv(s) && Enabled(s, CommitStep(svc, topic, upTo))
    ensures Inv(Next(s, CommitStep(svc, topic, upTo)))
  {
    var s' := Next(s, CommitStep(svc, topic, upTo));
    forall c, t ensures Committed(s', c, t) <= Position(s', c, t) <= Position(s, c, t) {
      assert Committed(s, c, t) <= Position(s, c, t);
    }
    OffsetsKeep(s, s');
  }

  lemma RewindStepKeeps(s: Sys, svc: Service, topic: Topic, to: nat)
    requires Inv(s) && Enabled(s, RewindStep(svc, topic, to))
    ensures Inv(Next(s, RewindStep(svc, topic, to)))
  {
    var s' := Next(s, RewindStep(svc, topic, to));
    forall c, t ensures Committed(s', c, t) <= Position(s', c, t) <= Position(s, c, t) {
      assert Committed(s, c, t) <= Position(s, c, t);
    }
    OffsetsKeep(s, s');
  }

  lemma OffsetsKeep(s: Sys, s': Sys)
    requires Inv(s) && s' == s.(position := s'.position, committed := s'.committed)
    requires forall c, t :: Committed(s', c, t) <= Position(s', c, t) <= Position(s, c, t)
    ensures Inv(s')
  {
    OffsetsChannels(s, s');
    SameViews(s, s');
  }

  lemma OffsetsChannels(s: Sys, s': Sys)
    requires ChannelInv(s) && s' == s.(position := s'.position, committed := s'.committed)
    requires forall c, t :: Committed(s', c, t) <= Position(s', c, t) <= Position(s, c, t)
    ensures ChannelInv(s')
  {
    forall c ensures Outbox(s', c) == Outbox(s, c) {}
    forall c ensures TableOk(s'.issued, Outbox(s', c), c) {
      assert TableOk(s.issued, Outbox(s, c), c);
    }
    forall t, i | 0 <= i < |Log(s', t)| ensures RecordOk(s', t, Log(s', t)[i]) {
      assert RecordOk(s, t, Log(s, t)[i]);
    }
    forall c, t, i | Consumes(c, t) && 0 <= i < Position(s', c, t) && i < |Log(s', t)|
      ensures HandledBy(s', c, Log(s', t)[i])
    {
      assert i < Position(s, c, t);
      assert HandledBy(s, c, Log(s, t)[i]);
    }
    forall c, t ensures Committed(s', c, t) <= Position(s', c, t) <= |Log(s', t)| {
      assert Committed(s, c, t) <= Position(s, c, t) <= |Log(s, t)|;
    }
  }
}
