/** Exactly when the retry circuit loses an event: `send_to_dlq` swallows its own failure, and the handler deletes what
    it has re-published (consumers/main.py, lambda_handlers/retry_handler.py). */
module LostEvents {
  import opened Consumer
  import opened CrashSafety
  import opened Events
  import opened RetryCircuit
  import opened Seqs
  import opened Topics

  ghost predicate AllPlaced(w: World)
  {
    forall e :: OnTopic(w.topic, e) ==> Placed(w, e)
  }

  /** What holds in every run, whether or not sends arrive. */
  ghost predicate Orderly(w: World)
  {
    HasCommitted(w.topic, w.c) && AtHand(w.topic, w.c) && QueueOk(w)
  }

  lemma {:induction false} PutKeepsOrderly(w: World, p: nat, m: Message)
    requires Orderly(w) && p < |w.topic|
    ensures Orderly(w.(topic := Put(w.topic, p, m)))
  {
    forall e | OnTopic(w.topic, e) ensures OnTopic(Put(w.topic, p, m), e) {
      OnTopicPut(w.topic, p, m, e);
    }
  }

  lemma {:induction false} ConsumerStepKeepsOrderly(w: World, a: Action)
    requires Orderly(w)
    ensures Orderly(Next(w, Consume(a)))
  {
    ConsumerStepAtHand(w.topic, w.c, a);
    ConsumerStepQueue(w, a);
  }

  /** Settling, dead-lettering and deleting leave topic and consumer alone. */
  lemma QueueStepKeepsOrderly(w: World, w': World)
    requires Orderly(w) && w'.topic == w.topic && w'.c == w.c.(dlq := w'.c.dlq)
    requires forall id :: id in w'.c.dlq ==> id in w.c.dlq && w'.c.dlq[id] == w.c.dlq[id]
    requires forall id :: id in w'.settled ==> id in w.settled || id in w.c.dlq
    ensures Orderly(w')
  {
  }

  lemma {:induction false} RepublishKeepsOrderly(w: World, id: nat, p: nat, outcome: Outcome)
    requires Orderly(w)
    ensures Orderly(Next(w, Republish(id, p, outcome)))
  {
    var w' := Next(w, Republish(id, p, outcome));
    if w' != w {
      var m := Message(w.c.dlq[id].event, w.c.dlq[id].retryCount + 1);
      PutKeepsOrderly(w, p, m);
      QueueStepKeepsOrderly(w.(topic := Put(w.topic, p, m)), w');
    }
  }

  lemma {:induction false} NextKeepsOrderly(w: World, move: Move)
    requires Orderly(w)
    ensures Orderly(Next(w, move))
  {
    match move {
      case Produce(e) =>
        if CanProduce(w.topic, e) {
          PutKeepsOrderly(w, PartitionOf(e.orderId, |w.topic|), Message(e, 0));
        }
      case Consume(a) => ConsumerStepKeepsOrderly(w, a);
      case Republish(id, p, outcome) => RepublishKeepsOrderly(w, id, p, outcome);
      case DeadLetter(_, _) => QueueStepKeepsOrderly(w, Next(w, move));
      case Delete(_, _) => QueueStepKeepsOrderly(w, Next(w, move));
    }
  }

  // ---------------------------------------------------------------- the two steps that can lose an event

  /** The event has a place other than entry `off` of partition `p`. */
  ghost predicate BesidesEntry(w: World, p: nat, off: nat, e: Event)
  {
    || e in w.c.projected || e in w.dead || (exists id :: id in w.c.dlq && w.c.dlq[id].event == e)
    || (exists q, i ::
          0 <= q < |w.c.committed| && Holds(w.topic, q, i, e) && i >= w.c.committed[q] && (q != p || i != off))
  }

  /** The event has a place other than queue message `id`. */
  ghost predicate BesidesMessage(w: World, id: nat, e: Event)
  {
    || e in w.c.projected || e in w.dead || (exists j :: j in w.c.dlq && w.c.dlq[j].event == e && j != id)
    || (exists q, i :: 0 <= q < |w.c.committed| && Holds(w.topic, q, i, e) && i >= w.c.committed[q])
  }

  /** The offset of a message is committed although its event was neither projected nor queued and is nowhere else; or
      the handler deletes the only place of an event whose re-published copy has met that fate. */
  ghost predicate Loses(w: World, move: Move)
  {
    match move
    case Consume(Commit(outcome)) =>
      outcome != Raised && IsAt(w.c, AtClose) && !BesidesEntry(w, w.c.phase.p, w.c.phase.off, w.c.phase.m.event)
    case Delete(id, outcome) =>
      outcome != Raised && id in w.settled && id in w.c.dlq && !BesidesMessage(w, id, w.c.dlq[id].event)
    case _ => false
  }

  /** Every place is still there. */
  ghost predicate KeepsPlaces(w: World, w': World)
  {
    && w.c.projected <= w'.c.projected && w.dead <= w'.dead && w'.c.committed == w.c.committed
    && (forall id :: id in w.c.dlq ==> id in w'.c.dlq && w'.c.dlq[id] == w.c.dlq[id])
    && (forall p, i, e :: Holds(w.topic, p, i, e) ==> Holds(w'.topic, p, i, e))
  }

  lemma {:induction false} KeptIsPlaced(w: World, w': World, e: Event)
    requires KeepsPlaces(w, w') && Placed(w, e)
    ensures Placed(w', e)
  {
    if exists id :: id in w.c.dlq && w.c.dlq[id].event == e {
      var id :| id in w.c.dlq && w.c.dlq[id].event == e;
      assert id in w'.c.dlq;
    } else if p, i :| 0 <= p < |w.c.committed| && Holds(w.topic, p, i, e) && i >= w.c.committed[p] {
      assert Holds(w'.topic, p, i, e);
    }
  }

  lemma {:induction false} PutPlaces(w: World, w': World, p: nat, m: Message)
    requires Orderly(w) && AllPlaced(w) && p < |w.topic| && w'.topic == Put(w.topic, p, m) && w'.c == w.c &&
        w'.dead == w.dead
    ensures AllPlaced(w')
  {
    forall q, i, e | Holds(w.topic, q, i, e) ensures Holds(w'.topic, q, i, e) {
      HoldsPut(w.topic, p, m, q, i, e);
    }
    forall e | OnTopic(w'.topic, e) ensures Placed(w', e) {
      OnTopicPut(w.topic, p, m, e);
      if e == m.event {
        assert Holds(w'.topic, p, |w.topic[p]|, e);
      } else {
        KeptIsPlaced(w, w', e);
      }
    }
  }

  lemma {:induction false} KeepingKeepsAll(w: World, w': World)
    requires AllPlaced(w) && KeepsPlaces(w, w') && w'.topic == w.topic
    ensures AllPlaced(w')
  {
    forall e | OnTopic(w'.topic, e) ensures Placed(w', e) {
      KeptIsPlaced(w, w', e);
    }
  }

  lemma OtherConsumerStep(w: World, a: Action)
    requires Orderly(w) && !a.Commit?
    ensures KeepsPlaces(w, Next(w, Consume(a)))
  {
  }

  /** A commit passes the entry at hand and nothing else. */
  lemma CommitPasses(w: World, w': World, outcome: Outcome)
    requires Orderly(w) && w' == Next(w, Consume(Commit(outcome))) && w'.c.committed != w.c.committed
    ensures w.c.phase.Busy? && (IsAt(w.c, AtClose) || w.c.phase.m.event in w.c.projected) && outcome != Raised
    ensures Holds(w.topic, w.c.phase.p, w.c.phase.off, w.c.phase.m.event)
    ensures |w'.c.committed| == |w.c.committed|
    ensures forall q, i, f :: 0 <= q < |w.c.committed| && Holds(w.topic, q, i, f) ==>
              (i >= w'.c.committed[q] <==> i >= w.c.committed[q] && (q != w.c.phase.p || i != w.c.phase.off))
    ensures w'.c.dlq == w.c.dlq && w'.c.projected == w.c.projected && w'.topic == w.topic && w'.dead == w.dead
  {
  }

  lemma {:induction false} CommitExact(w: World, outcome: Outcome)
    requires Orderly(w) && AllPlaced(w)
    ensures AllPlaced(Next(w, Consume(Commit(outcome)))) <==> !Loses(w, Consume(Commit(outcome)))
  {
    var w' := Next(w, Consume(Commit(outcome)));
    if w'.c.committed != w.c.committed {
      CommitPasses(w, w', outcome);
      CommittedExact(w, w', w.c.phase.p, w.c.phase.off, w.c.phase.m.event);
    } else {
      NothingCommitted(w, outcome);
      KeepingKeepsAll(w, w');
    }
  }

  lemma {:induction false} NothingCommitted(w: World, outcome: Outcome)
    requires Orderly(w) && AllPlaced(w) && Next(w, Consume(Commit(outcome))).c.committed == w.c.committed
    ensures !Loses(w, Consume(Commit(outcome))) && KeepsPlaces(w, Next(w, Consume(Commit(outcome))))
  {
    if IsAt(w.c, AtClose) {
      assert outcome != Raised ==> w.c.phase.m.event in w.c.projected;
    }
  }

  /** After the entry is passed every event has a place exactly when the entry's event has another one. */
  lemma {:induction false} CommittedExact(w: World, w': World, p: nat, off: nat, e: Event)
    requires AllPlaced(w) && Holds(w.topic, p, off, e) && |w'.c.committed| == |w.c.committed|
    requires forall q, i, f :: 0 <= q < |w.c.committed| && Holds(w.topic, q, i, f) ==>
               (i >= w'.c.committed[q] <==> i >= w.c.committed[q] && (q != p || i != off))
    requires w'.c.dlq == w.c.dlq && w'.c.projected == w.c.projected && w'.topic == w.topic && w'.dead == w.dead
    ensures AllPlaced(w') <==> BesidesEntry(w, p, off, e)
  {
    assert Placed(w', e) <==> BesidesEntry(w, p, off, e);
    assert OnTopic(w'.topic, e);
    if BesidesEntry(w, p, off, e) {
      forall f | OnTopic(w'.topic, f) ensures Placed(w', f) {
        assert Placed(w, f);
        if f != e && (exists q, i :: 0 <= q < |w.c.committed| && Holds(w.topic, q, i, f) && i >= w.c.committed[q]) {
          var q, i :| 0 <= q < |w.c.committed| && Holds(w.topic, q, i, f) && i >= w.c.committed[q];
          assert q != p || i != off;
          assert Holds(w'.topic, q, i, f);
        }
      }
    }
  }

  lemma {:induction false} DeleteExact(w: World, id: nat, outcome: Outcome)
    requires Orderly(w) && AllPlaced(w)
    ensures AllPlaced(Next(w, Delete(id, outcome))) <==> !Loses(w, Delete(id, outcome))
  {
    var w' := Next(w, Delete(id, outcome));
    if outcome != Raised && id in w.settled && id in w.c.dlq {
      DeletedExact(w, w', id);
    } else {
      assert w'.c.dlq == w.c.dlq;
      KeepingKeepsAll(w, w');
    }
  }

  lemma {:induction false} DeletedExact(w: World, w': World, id: nat)
    requires Orderly(w) && AllPlaced(w) && id in w.c.dlq && w' == w.(c := w.c.(dlq := w.c.dlq - {id}))
    ensures AllPlaced(w') <==> BesidesMessage(w, id, w.c.dlq[id].event)
  {
    var e := w.c.dlq[id].event;
    assert OnTopic(w'.topic, e);
    forall f ensures Placed(w', f) <==> BesidesMessage(w, id, f) {
      if j :| j in w.c.dlq && w.c.dlq[j].event == f && j != id {
        assert j in w'.c.dlq;
      }
    }
    forall f | OnTopic(w'.topic, f) && f != e ensures BesidesMessage(w, id, f) {
      assert Placed(w, f);
    }
  }

  /** Of all steps only these two can lose an event, and they do exactly when the event has no other place. */
  lemma {:induction false} StepLosesExactly(w: World, move: Move)
    requires Orderly(w) && AllPlaced(w)
    ensures AllPlaced(Next(w, move)) <==> !Loses(w, move)
  {
    match move {
      case Produce(e) =>
        if CanProduce(w.topic, e) {
          PutPlaces(w, Next(w, move), PartitionOf(e.orderId, |w.topic|), Message(e, 0));
        }
      case Consume(a) =>
        if a.Commit? {
          CommitExact(w, a.outcome);
        } else {
          OtherConsumerStep(w, a);
          KeepingKeepsAll(w, Next(w, move));
        }
      case Republish(id, p, outcome) =>
        if id in w.c.dlq && w.c.dlq[id].retryCount < MAX_RETRIES && p < |w.topic| && outcome != Raised {
          PutPlaces(w, Next(w, move), p, Message(w.c.dlq[id].event, w.c.dlq[id].retryCount + 1));
        }
      case DeadLetter(id, outcome) => KeepingKeepsAll(w, Next(w, move));
      case Delete(id, outcome) => DeleteExact(w, id, outcome);
    }
  }

  // ---------------------------------------------------------------- whole runs

  lemma {:induction false} RunIsOrderly(partitions: nat, moves: seq<Move>)
    ensures Orderly(Run(partitions, moves))
  {
    if moves != [] {
      RunIsOrderly(partitions, moves[..|moves| - 1]);
      NextKeepsOrderly(Run(partitions, moves[..|moves| - 1]), moves[|moves| - 1]);
    }
  }

  /** Move `n` of the run loses an event. */
  ghost predicate LosesAt(partitions: nat, moves: seq<Move>, n: nat)
    requires n < |moves|
  {
    Loses(Run(partitions, moves[..n]), moves[n])
  }

  ghost predicate NeverLoses(partitions: nat, moves: seq<Move>)
  {
    forall n: nat :: n < |moves| ==> !LosesAt(partitions, moves, n)
  }

  /** After `n` moves every published event has a place. */
  ghost predicate PlacedAt(partitions: nat, moves: seq<Move>, n: nat)
    requires n <= |moves|
  {
    AllPlaced(Run(partitions, moves[..n]))
  }

  ghost predicate AlwaysPlaced(partitions: nat, moves: seq<Move>)
  {
    forall n: nat :: n <= |moves| ==> PlacedAt(partitions, moves, n)
  }

  /** In every run, whatever fails: each published event has a place at every moment if and only if no commit passes,
      and no delete removes, the only place of an event. */
  lemma {:induction false} NothingIsLostIff(partitions: nat, moves: seq<Move>)
    ensures AlwaysPlaced(partitions, moves) <==> NeverLoses(partitions, moves)
  {
    if moves == [] {
      assert moves[..0] == [];
      assert forall p, i, e :: !Holds(EmptyTopic(partitions), p, i, e);
    } else {
      var n := |moves| - 1;
      var init := moves[..n];
      NothingIsLostIff(partitions, init);
      PlacedPrefix(partitions, moves);
      LosesPrefix(partitions, moves);
      RunIsOrderly(partitions, init);
      if AllPlaced(Run(partitions, init)) {
        StepLosesExactly(Run(partitions, init), moves[n]);
      }
    }
  }

  lemma {:induction false} PlacedPrefix(partitions: nat, moves: seq<Move>)
    requires moves != []
    ensures var init := moves[..|moves| - 1];
            && (AlwaysPlaced(partitions, moves) <==>
                  AlwaysPlaced(partitions, init) && AllPlaced(Run(partitions, moves)))
            && (AlwaysPlaced(partitions, init) ==> AllPlaced(Run(partitions, init)))
  {
    var n := |moves| - 1;
    var init := moves[..n];
    forall i: nat | i <= n ensures PlacedAt(partitions, init, i) <==> PlacedAt(partitions, moves, i) {
      assert init[..i] == moves[..i];
    }
    assert PlacedAt(partitions, init, n) <==> AllPlaced(Run(partitions, init)) by {
      assert init[..n] == init;
    }
    assert PlacedAt(partitions, moves, n + 1) <==> AllPlaced(Run(partitions, moves)) by {
      assert moves[..n + 1] == moves;
    }
  }

  lemma {:induction false} LosesPrefix(partitions: nat, moves: seq<Move>)
    requires moves != []
    ensures var n := |moves| - 1;
            NeverLoses(partitions, moves) <==>
              NeverLoses(partitions, moves[..n]) && !Loses(Run(partitions, moves[..n]), moves[n])
  {
    var n := |moves| - 1;
    var init := moves[..n];
    forall i: nat | i < n ensures LosesAt(partitions, init, i) <==> LosesAt(partitions, moves, i) {
      assert init[..i] == moves[..i] && init[i] == moves[i];
    }
    assert LosesAt(partitions, moves, n) <==> Loses(Run(partitions, init), moves[n]);
  }

  /** When sends to the queue arrive, no step loses anything. */
  lemma {:induction false} ArrivingSendsLoseNothing(partitions: nat, moves: seq<Move>)
    requires forall i :: 0 <= i < |moves| ==> SendsArrive(moves[i])
    ensures NeverLoses(partitions, moves)
  {
    forall n: nat | n <= |moves| ensures PlacedAt(partitions, moves, n) {
      forall e | OnTopic(Run(partitions, moves[..n]).topic, e) ensures Placed(Run(partitions, moves[..n]), e) {
        NoEventIsLost(partitions, moves[..n], e);
      }
    }
    NothingIsLostIff(partitions, moves);
  }

  // ---------------------------------------------------------------- a run that loses an event

  /** The five steps of the consumer on a message it cannot project. */
  function Failing(p: nat, send: Outcome): seq<Move>
  {
    [Consume(Fetch(p)), Consume(Check), Consume(ProjectStep(Ok)), Consume(SendDlq(send)), Consume(Commit(Ok))]
  }

  /** A line whose order the consumer has not seen fails on the foreign key, goes to the queue if that can be reached,
      and its offset is committed. */
  lemma LineWithoutOrder(topic: Topic, c: State, p: nat, e: Event, send: Outcome)
    requires c.phase.Polling? && p < |topic| && p < |c.committed| && c.committed[p] < |topic[p]|
    requires topic[p][c.committed[p]].event == e && e.payload.ItemAdded?
    requires e.eventId !in c.processed && e.orderId !in c.tables.orders
    ensures var m, off := topic[p][c.committed[p]], c.committed[p];
            && Step(topic, Step(topic, c, Fetch(p)), Check) == c.(phase := Busy(p, off, m, AtProject))
            && Step(topic, c.(phase := Busy(p, off, m, AtProject)), ProjectStep(Ok)) ==
                  c.(phase := Busy(p, off, m, AtDlq))
            && Step(topic, Step(topic, c.(phase := Busy(p, off, m, AtDlq)), SendDlq(send)), Commit(Ok)) ==
               Given(c, p, m, send)
  {
  }

  /** The consumer after it has given up on a message. */
  function Given(c: State, p: nat, m: Message, send: Outcome): State
    requires p < |c.committed|
  {
    var c' := c.(committed := c.committed[p := c.committed[p] + 1], phase := Polling);
    if send == Raised then c' else c'.(dlq := c.dlq[c.sends := m], sends := c.sends + 1)
  }

  lemma {:induction false} FailingRun(w: World, p: nat, e: Event, send: Outcome)
    requires w.c.phase.Polling? && p < |w.topic| && p < |w.c.committed| && w.c.committed[p] < |w.topic[p]|
    requires w.topic[p][w.c.committed[p]].event == e && e.payload.ItemAdded?
    requires e.eventId !in w.c.processed && e.orderId !in w.c.tables.orders
    ensures Fold(Next, w, Failing(p, send)) == w.(c := Given(w.c, p, w.topic[p][w.c.committed[p]], send))
  {
    FoldFive(Next, w, Failing(p, send));
    LineWithoutOrder(w.topic, w.c, p, e, send);
  }

  /** A new line is published. */
  lemma {:induction false} FirstProduced(partitions: nat, e: Event)
    requires partitions > 0
    ensures Fold(Next, Begin(partitions), [Produce(e)]) ==
            World(Put(EmptyTopic(partitions), PartitionOf(e.orderId, partitions), Message(e, 0)),
                  Start(partitions), {}, {})
  {
    assert CanProduce(EmptyTopic(partitions), e);
    FoldSnoc(Next, Begin(partitions), [], Produce(e));
    assert [] + [Produce(e)] == [Produce(e)];
  }

  /** A line that reaches the consumer before its order is lost when the queue cannot be reached. */
  lemma {:induction false} FailedSendLosesEvent(partitions: nat, e: Event)
    requires partitions > 0 && e.payload.ItemAdded?
    ensures var w := Run(partitions, [Produce(e)] + Failing(PartitionOf(e.orderId, partitions), Raised));
            OnTopic(w.topic, e) && !Placed(w, e)
  {
    var p := PartitionOf(e.orderId, partitions);
    var w := World(Put(EmptyTopic(partitions), p, Message(e, 0)), Start(partitions), {}, {});
    FirstProduced(partitions, e);
    FoldConcat(Next, Begin(partitions), [Produce(e)], Failing(p, Raised));
    FailingRun(w, p, e, Raised);
    assert Holds(w.topic, p, 0, e);
    assert forall q, i, f :: Holds(w.topic, q, i, f) ==> q == p && i == 0;
  }

  /** The delete can be the step that loses it: the message is re-published, its copy fails while the queue cannot be
      reached, and the handler then deletes the message. Until then the event has a place: the message itself. */
  lemma {:induction false} DeleteLosesEvent(partitions: nat, e: Event)
    requires partitions > 0 && e.payload.ItemAdded?
    ensures var p := PartitionOf(e.orderId, partitions);
            var w := Run(partitions, [Produce(e)] + Failing(p, Ok) + [Republish(0, p, Ok)] + Failing(p, Raised));
            var w' := Next(w, Delete(0, Ok));
            && OnTopic(w.topic, e) && Placed(w, e) && !Placed(w', e)
            && (forall q, i, f :: Holds(w.topic, q, i, f) ==> f == e) && 0 in w.c.dlq && w.c.dlq[0].event == e
  {
    var p := PartitionOf(e.orderId, partitions);
    var m, m' := Message(e, 0), Message(e, 1);
    var t1 := Put(EmptyTopic(partitions), p, m);
    var c0 := Start(partitions);
    var c1 := Given(c0, p, m, Ok);
    FirstProduced(partitions, e);
    FoldConcat(Next, Begin(partitions), [Produce(e)], Failing(p, Ok));
    FailingRun(World(t1, c0, {}, {}), p, e, Ok);
    var w1 := World(t1, c1, {}, {});
    assert Run(partitions, [Produce(e)] + Failing(p, Ok)) == w1;
    FoldSnoc(Next, Begin(partitions), [Produce(e)] + Failing(p, Ok), Republish(0, p, Ok));
    var w2 := World(Put(t1, p, m'), c1, {0}, {});
    Republished(w1, w2, p, e);
    FoldConcat(Next, Begin(partitions), [Produce(e)] + Failing(p, Ok) + [Republish(0, p, Ok)], Failing(p, Raised));
    FailingRun(w2, p, e, Raised);
    var w := World(w2.topic, Given(c1, p, m', Raised), {0}, {});
    assert Holds(w.topic, p, 0, e);
    assert forall q, i, f :: Holds(w.topic, q, i, f) ==> q == p && i < 2 && f == e;
    assert w.c.dlq == map[0 := m] && w.c.committed[p] == 2;
    assert w.c.dlq - {0} == map[];
  }

  lemma Republished(w: World, w': World, p: nat, e: Event)
    requires p < |w.topic| && 0 in w.c.dlq && w.c.dlq[0] == Message(e, 0) && w.settled == {}
    requires w' == World(Put(w.topic, p, Message(e, 1)), w.c, {0}, w.dead)
    ensures Next(w, Republish(0, p, Ok)) == w'
  {
  }
}
