/** Commands, topic, consumer and retry handler as one machine, with the expiry stamp on stored events
    (api/routers/command_router.py, api/services/event_store.py, consumers/main.py,
    lambda_handlers/retry_handler.py). */
module Pipeline {
  import opened Aggregate
  import opened Events
  import opened Seqs
  import Consumer
  import RetryCircuit
  import Topics
  import WriteSide

  /** `expiring`: ids of the stored events that carry an expiry date; `settled` and `dead` as in the retry circuit. */
  datatype System = System(
    write: WriteSide.State, c: Consumer.State, expiring: set<Id>, settled: set<nat>, dead: set<Event>)

  datatype Move = Command(write: WriteSide.Action) | Consume(action: Consumer.Action) | Retry(step: RetryCircuit.Move)

  function Start(partitions: nat): System
  {
    System(WriteSide.Start(partitions), Consumer.Start(partitions), {}, {}, {})
  }

  /** The consumer stamps the order of a terminal event in this step. */
  predicate Stamps(s: System, a: Consumer.Action)
  {
    a.Stamp? && a.outcome != Raised && Consumer.IsAt(s.c, Consumer.AtStamp) &&
        Consumer.Terminal(s.c.phase.m.event.payload)
  }

  function IdsOf(docs: seq<Event>, oid: Id): set<Id>
  {
    set i | 0 <= i < |docs| && docs[i].orderId == oid :: docs[i].eventId
  }

  /** The part of the system that the retry circuit sees. */
  function Circuit(s: System): RetryCircuit.World
  {
    RetryCircuit.World(s.write.topic, s.c, s.settled, s.dead)
  }

  predicate IsHandlerStep(step: RetryCircuit.Move)
  {
    step.Republish? || step.DeadLetter? || step.Delete?
  }

  ghost function Next(s: System, move: Move): System
  {
    match move
    case Command(a) => s.(write := WriteSide.Step(s.write, a))
    case Consume(a) =>
      s.(c := Consumer.Step(s.write.topic, s.c, a),
         expiring := if Stamps(s, a) then s.expiring + IdsOf(s.write.docs, s.c.phase.m.event.orderId) else s.expiring)
    case Retry(step) =>
      if !IsHandlerStep(step) then s else
        var w := RetryCircuit.Next(Circuit(s), step);
        s.(write := s.write.(topic := w.topic), c := w.c, settled := w.settled, dead := w.dead)
  }

  ghost function Run(partitions: nat, moves: seq<Move>): System
  {
    Fold(Next, Start(partitions), moves)
  }

  // ---------------------------------------------------------------- expiry

  ghost predicate CancelledIn(docs: seq<Event>, oid: Id)
  {
    exists i :: 0 <= i < |docs| && docs[i].orderId == oid && docs[i].payload.OrderCancelled?
  }

  /** Whatever is on the topic, at the consumer or in the queue is stored. */
  ghost predicate AllStored(s: System)
  {
    && (forall p, i :: 0 <= p < |s.write.topic| && 0 <= i < |s.write.topic[p]| ==>
          s.write.topic[p][i].event in s.write.docs)
    && (s.c.phase.Busy? ==> s.c.phase.m.event in s.write.docs)
    && (forall id :: id in s.c.dlq ==> s.c.dlq[id].event in s.write.docs)
  }

  ghost predicate StampsOk(docs: seq<Event>, expiring: set<Id>)
  {
    && (forall id :: id in expiring ==> HasId(docs, id))
    && (forall i :: 0 <= i < |docs| && docs[i].eventId in expiring ==> CancelledIn(docs, docs[i].orderId))
  }

  ghost predicate ExpiryInv(s: System)
  {
    WriteSide.StoreInv(s.write) && AllStored(s) && StampsOk(s.write.docs, s.expiring)
  }

  lemma {:induction false} CommandKeepsStored(s: System, a: WriteSide.Action)
    requires WriteSide.StoreInv(s.write) && AllStored(s)
    ensures AllStored(Next(s, Command(a)))
  {
    var w, w' := s.write, WriteSide.Step(s.write, a);
    assert forall e :: e in w.docs ==> e in w'.docs;
    if w'.topic != w.topic {
      var e := w.handlers[a.h].event;
      assert WriteSide.HandlerOk(w.docs, w.handlers[a.h]);
      assert w'.topic == Topics.Put(w.topic, Topics.PartitionOf(e.orderId, |w.topic|), Topics.Message(e, 0));
    }
  }

  lemma ConsumeKeepsStored(s: System, a: Consumer.Action)
    requires AllStored(s)
    ensures AllStored(Next(s, Consume(a)))
  {
  }

  lemma RetryKeepsStored(s: System, step: RetryCircuit.Move)
    requires AllStored(s)
    ensures AllStored(Next(s, Retry(step)))
  {
  }

  lemma {:induction false} CommandKeepsStamps(docs: seq<Event>, docs': seq<Event>, e: Event, expiring: set<Id>)
    requires StampsOk(docs, expiring) && docs' == docs + [e] && DistinctIds(docs')
    ensures StampsOk(docs', expiring)
  {
    assert forall i :: 0 <= i < |docs| ==> docs'[i] == docs[i];
    forall id | id in expiring ensures HasId(docs', id) {
      var i :| 0 <= i < |docs| && docs[i].eventId == id;
      assert docs'[i].eventId == id;
    }
    forall i | 0 <= i < |docs'| && docs'[i].eventId in expiring ensures CancelledIn(docs', docs'[i].orderId) {
      assert i < |docs|;
      assert CancelledIn(docs, docs[i].orderId);
      var j :| 0 <= j < |docs| && docs[j].orderId == docs[i].orderId && docs[j].payload.OrderCancelled?;
      assert docs'[j] == docs[j];
    }
  }

  lemma {:induction false} CommandKeepsExpiry(s: System, a: WriteSide.Action)
    requires ExpiryInv(s)
    ensures ExpiryInv(Next(s, Command(a)))
  {
    var docs, docs' := s.write.docs, WriteSide.Step(s.write, a).docs;
    WriteSide.StepKeepsStore(s.write, a);
    CommandKeepsStored(s, a);
    if docs' != docs {
      CommandKeepsStamps(docs, docs', s.write.handlers[a.h].event, s.expiring);
    }
  }

  /** No stored event is a delivery, so a terminal one is a cancellation. */
  lemma {:induction false} StoredTerminalIsCancellation(docs: seq<Event>, e: Event)
    requires Lawful(e.orderId, OrderLog(docs, e.orderId)) && e in docs && Consumer.Terminal(e.payload)
    ensures e.payload.OrderCancelled?
  {
    var log := OrderLog(docs, e.orderId);
    OrderLogElements(docs, e.orderId, e);
    var i :| 0 <= i < |log| && log[i] == e;
    LawfulAt(e.orderId, log, i);
  }

  lemma {:induction false} StampKeepsStamps(docs: seq<Event>, e: Event, expiring: set<Id>)
    requires DistinctIds(docs) && StampsOk(docs, expiring) && e in docs && e.payload.OrderCancelled?
    ensures StampsOk(docs, expiring + IdsOf(docs, e.orderId))
  {
    var k :| 0 <= k < |docs| && docs[k] == e;
    assert CancelledIn(docs, e.orderId);
    forall i | 0 <= i < |docs| && docs[i].eventId in expiring + IdsOf(docs, e.orderId)
      ensures CancelledIn(docs, docs[i].orderId)
    {
      if docs[i].eventId !in expiring {
        var j :| 0 <= j < |docs| && docs[j].orderId == e.orderId && docs[j].eventId == docs[i].eventId;
        assert i == j;
      }
    }
  }

  lemma {:induction false} ConsumeKeepsExpiry(s: System, a: Consumer.Action)
    requires ExpiryInv(s)
    ensures ExpiryInv(Next(s, Consume(a)))
  {
    ConsumeKeepsStored(s, a);
    if Stamps(s, a) {
      StoredTerminalIsCancellation(s.write.docs, s.c.phase.m.event);
      StampKeepsStamps(s.write.docs, s.c.phase.m.event, s.expiring);
    }
  }

  lemma {:induction false} RunKeepsExpiry(partitions: nat, moves: seq<Move>)
    ensures ExpiryInv(Run(partitions, moves))
  {
    if moves != [] {
      var init, move := moves[..|moves| - 1], moves[|moves| - 1];
      RunKeepsExpiry(partitions, init);
      match move {
        case Command(a) => CommandKeepsExpiry(Run(partitions, init), a);
        case Consume(a) => ConsumeKeepsExpiry(Run(partitions, init), a);
        case Retry(step) => RetryKeepsStored(Run(partitions, init), step);
      }
    }
  }

  /** In every reachable state, whatever failed, crashed or was re-published, a stored event with an expiry date belongs
      to an order whose stored log folds to CANCELLED. */
  lemma {:induction false} OnlyFinishedOrdersExpire(partitions: nat, moves: seq<Move>, e: Event)
    requires var s := Run(partitions, moves); e in s.write.docs && e.eventId in s.expiring
    ensures Replay(e.orderId, OrderLog(Run(partitions, moves).write.docs, e.orderId)).status == Cancelled
  {
    RunKeepsExpiry(partitions, moves);
    var docs := Run(partitions, moves).write.docs;
    var i :| 0 <= i < |docs| && docs[i] == e;
    assert CancelledIn(docs, e.orderId);
    var j :| 0 <= j < |docs| && docs[j].orderId == e.orderId && docs[j].payload.OrderCancelled?;
    OrderLogElements(docs, e.orderId, docs[j]);
    CancelledForGood(e.orderId, OrderLog(docs, e.orderId), docs[j]);
  }
}
