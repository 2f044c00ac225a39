/** The consumer together with the dead letter queue and the retry handler
    (consumers/main.py, lambda_handlers/retry_handler.py). */
module RetryCircuit {
  import opened Consumer
  import opened CrashSafety
  import opened Events
  import opened Seqs
  import opened Topics

  const MAX_RETRIES := 3

  /** `settled`: receipts whose message some handler invocation has re-published or dead-lettered;
      `dead`: dead-letter objects, keyed by order and event. */
  datatype World = World(topic: Topic, c: State, settled: set<nat>, dead: set<Event>)

  datatype Move =
    | Produce(event: Event)
    | Consume(action: Action)
    | Republish(id: nat, p: nat, outcome: Outcome)
    | DeadLetter(id: nat, outcome: Outcome)
    | Delete(id: nat, outcome: Outcome)

  function Begin(partitions: nat): World
  {
    World(EmptyTopic(partitions), Start(partitions), {}, {})
  }

  ghost predicate CanProduce(topic: Topic, e: Event)
  {
    topic != [] && IdsUnique(Put(topic, PartitionOf(e.orderId, |topic|), Message(e, 0)))
  }

  function Settle(w: World, id: nat, outcome: Outcome): World
  {
    if outcome == Ok then w.(settled := w.settled + {id}) else w
  }

  /** One step of a producer, the consumer or a handler invocation. Any number of invocations may hold the same queue
      message, and an invocation may die after any of its steps. The partition of a re-published event is arbitrary. */
  ghost function Next(w: World, move: Move): World
  {
    match move
    case Produce(e) =>
      if CanProduce(w.topic, e) then w.(topic := Put(w.topic, PartitionOf(e.orderId, |w.topic|), Message(e, 0))) else w
    case Consume(a) => w.(c := Step(w.topic, w.c, a))
    case Republish(id, p, outcome) =>
      if id !in w.c.dlq || w.c.dlq[id].retryCount >= MAX_RETRIES || p >= |w.topic| then w else
        var m := w.c.dlq[id];
        if outcome == Raised then w
        else Settle(w.(topic := Put(w.topic, p, Message(m.event, m.retryCount + 1))), id, outcome)
    case DeadLetter(id, outcome) =>
      if id !in w.c.dlq || w.c.dlq[id].retryCount < MAX_RETRIES || outcome == Raised then w
      else Settle(w.(dead := w.dead + {w.c.dlq[id].event}), id, outcome)
    case Delete(id, outcome) =>
      if id !in w.settled || outcome == Raised then w else w.(c := w.c.(dlq := w.c.dlq - {id}))
  }

  ghost function Run(partitions: nat, moves: seq<Move>): World
  {
    Fold(Next, Begin(partitions), moves)
  }

  // ---------------------------------------------------------------- no event is lost

  /** An event is uncommitted in Kafka, projected, in the queue, or in dead-letter storage. */
  ghost predicate Placed(w: World, e: Event)
  {
    || (exists p, i :: 0 <= p < |w.c.committed| && Holds(w.topic, p, i, e) && i >= w.c.committed[p])
    || e in w.c.projected
    || (exists id :: id in w.c.dlq && w.c.dlq[id].event == e)
    || e in w.dead
  }

  /** Entries below this offset are committed or about to be. */
  function Passed(c: State, p: nat): nat
    requires p < |c.committed|
  {
    if IsAt(c, AtClose) && c.phase.p == p && c.committed[p] <= c.phase.off then c.phase.off + 1 else c.committed[p]
  }

  ghost predicate Waiting(w: World, e: Event)
  {
    exists p, i :: 0 <= p < |w.c.committed| && Holds(w.topic, p, i, e) && i >= Passed(w.c, p)
  }

  ghost predicate Queued(w: World, e: Event)
  {
    exists id :: id in w.c.dlq && id !in w.settled && w.c.dlq[id].event == e
  }

  ghost predicate Safe(w: World, e: Event)
  {
    e in w.c.projected || e in w.dead || Queued(w, e) || Waiting(w, e)
  }

  /** The message at hand is the entry at the consumer's position, and it was projected if it got that far. */
  ghost predicate AtHand(topic: Topic, c: State)
    requires |c.committed| == |topic|
  {
    c.phase.Busy? ==>
      var p, off, at, e := c.phase.p, c.phase.off, c.phase.at, c.phase.m.event;
      && p < |topic| && off < |topic[p]| && topic[p][off] == c.phase.m
      && (c.committed[p] == off || (c.committed[p] == off + 1 && (at == AtDlq || at == AtClose) && e in c.projected))
      && (at == AtInvalidate || at == AtMark || at == AtStamp || at == AtCommit ==> e in c.projected)
  }

  ghost predicate KeysOk(topic: Topic, c: State)
  {
    && (forall id :: id in c.processed ==> exists e :: e in c.projected && e.eventId == id)
    && (forall e :: e in c.projected ==> OnTopic(topic, e))
  }

  ghost predicate QueueOk(w: World)
  {
    && (forall id :: id in w.c.dlq ==> id < w.c.sends && OnTopic(w.topic, w.c.dlq[id].event))
    && (forall id :: id in w.settled ==> id < w.c.sends)
  }

  ghost predicate NothingLost(w: World)
  {
    && HasCommitted(w.topic, w.c) && IdsUnique(w.topic)
    && AtHand(w.topic, w.c) && KeysOk(w.topic, w.c) && QueueOk(w)
    && (forall e :: OnTopic(w.topic, e) ==> Safe(w, e))
  }

  /** The hypothesis: sends to the queue do not fail. */
  predicate SendsArrive(move: Move)
  {
    move.Consume? && move.action.SendDlq? ==> move.action.outcome != Raised
  }

  /** Nothing that keeps an event safe has gone. */
  ghost predicate Keeps(w: World, w': World)
  {
    && w.c.projected <= w'.c.projected && w.dead <= w'.dead
    && (forall id :: id in w.c.dlq && id !in w.settled ==>
          id in w'.c.dlq && id !in w'.settled && w'.c.dlq[id] == w.c.dlq[id])
    && |w'.c.committed| == |w.c.committed|
    && (forall p :: 0 <= p < |w.c.committed| ==> Passed(w'.c, p) <= Passed(w.c, p))
    && (forall p, i, e :: Holds(w.topic, p, i, e) ==> Holds(w'.topic, p, i, e))
  }

  lemma {:induction false} KeptIsSafe(w: World, w': World, e: Event)
    requires Keeps(w, w') && Safe(w, e)
    ensures Safe(w', e)
  {
    if Queued(w, e) {
      var id :| id in w.c.dlq && id !in w.settled && w.c.dlq[id].event == e;
      assert id in w'.c.dlq;
    } else if Waiting(w, e) {
      var p, i :| 0 <= p < |w.c.committed| && Holds(w.topic, p, i, e) && i >= Passed(w.c, p);
      assert Holds(w'.topic, p, i, e);
    }
  }

  /** The consumer moves past one entry whose event is safe elsewhere. */
  lemma {:induction false} PassedIsSafe(w: World, c': State, p: nat, off: nat, passed: Event, e: Event)
    requires HasCommitted(w.topic, w.c) && |c'.committed| == |w.c.committed| && w.c.projected <= c'.projected
    requires forall id :: id in w.c.dlq && id !in w.settled ==> id in c'.dlq && c'.dlq[id] == w.c.dlq[id]
    requires Holds(w.topic, p, off, passed) && (passed in c'.projected || Queued(w.(c := c'), passed))
    requires forall q :: 0 <= q < |w.c.committed| ==> Passed(c', q) <= if q == p then off + 1 else Passed(w.c, q)
    requires off <= Passed(w.c, p)
    requires Safe(w, e)
    ensures Safe(w.(c := c'), e)
  {
    if Queued(w, e) {
      var id :| id in w.c.dlq && id !in w.settled && w.c.dlq[id].event == e;
      assert id in c'.dlq;
    } else if Waiting(w, e) {
      var q, i :| 0 <= q < |w.c.committed| && Holds(w.topic, q, i, e) && i >= Passed(w.c, q);
      assert q == p && i == off ==> e == passed;
    }
  }

  /** What one consumer step does for the events' safety: it keeps everything, or it passes the message at hand. */
  ghost predicate Passes(w: World, c': State)
  {
    && w.c.phase.Busy? && |c'.committed| == |w.c.committed| && w.c.projected <= c'.projected
    && (forall id :: id in w.c.dlq && id !in w.settled ==> id in c'.dlq && c'.dlq[id] == w.c.dlq[id])
    && (w.c.phase.m.event in c'.projected || Queued(w.(c := c'), w.c.phase.m.event))
    && (forall q :: 0 <= q < |w.c.committed| ==>
          Passed(c', q) <= if q == w.c.phase.p then w.c.phase.off + 1 else Passed(w.c, q))
  }

  /** A dedup key stands for a projected event. */
  lemma {:induction false} SkippedWasProjected(topic: Topic, c: State, e: Event)
    requires IdsUnique(topic) && KeysOk(topic, c) && OnTopic(topic, e) && e.eventId in c.processed
    ensures e in c.projected
  {
    var f :| f in c.projected && f.eventId == e.eventId;
    assert OnTopic(topic, f);
    var p, i :| Holds(topic, p, i, e);
    var q, j :| Holds(topic, q, j, f);
  }

  lemma {:induction false} CheckIsSafe(w: World)
    requires HasCommitted(w.topic, w.c) && AtHand(w.topic, w.c) && IdsUnique(w.topic) && KeysOk(w.topic, w.c)
    ensures Keeps(w, Next(w, Consume(Check))) || Passes(w, Step(w.topic, w.c, Check))
  {
    if IsAt(w.c, AtCheck) && w.c.phase.m.event.eventId in w.c.processed {
      assert Holds(w.topic, w.c.phase.p, w.c.phase.off, w.c.phase.m.event);
      SkippedWasProjected(w.topic, w.c, w.c.phase.m.event);
    }
  }

  lemma {:induction false} SendIsSafe(w: World, outcome: Outcome)
    requires HasCommitted(w.topic, w.c) && AtHand(w.topic, w.c) && QueueOk(w) && outcome != Raised
    ensures Keeps(w, Next(w, Consume(SendDlq(outcome)))) || Passes(w, Step(w.topic, w.c, SendDlq(outcome)))
  {
    if IsAt(w.c, AtDlq) {
      assert w.c.sends in Step(w.topic, w.c, SendDlq(outcome)).dlq && w.c.sends !in w.settled;
    }
  }

  lemma CommitIsSafe(w: World, outcome: Outcome)
    requires HasCommitted(w.topic, w.c) && AtHand(w.topic, w.c)
    ensures Keeps(w, Next(w, Consume(Commit(outcome)))) || Passes(w, Step(w.topic, w.c, Commit(outcome)))
  {
  }

  lemma OtherStepKeeps(w: World, a: Action)
    requires HasCommitted(w.topic, w.c) && !a.Check? && !a.SendDlq? && !a.Commit?
    ensures Keeps(w, Next(w, Consume(a)))
  {
  }

  lemma {:induction false} ConsumerStepIsSafe(w: World, a: Action)
    requires NothingLost(w) && SendsArrive(Consume(a))
    ensures Keeps(w, Next(w, Consume(a))) || Passes(w, Step(w.topic, w.c, a))
  {
    match a {
      case Check => CheckIsSafe(w);
      case SendDlq(outcome) => SendIsSafe(w, outcome);
      case Commit(outcome) => CommitIsSafe(w, outcome);
      case _ => OtherStepKeeps(w, a);
    }
  }

  lemma ConsumerStepAtHand(topic: Topic, c: State, a: Action)
    requires HasCommitted(topic, c) && AtHand(topic, c)
    ensures HasCommitted(topic, Step(topic, c, a)) && AtHand(topic, Step(topic, c, a))
  {
  }

  lemma {:induction false} ConsumerStepKeys(topic: Topic, c: State, a: Action)
    requires HasCommitted(topic, c) && AtHand(topic, c) && KeysOk(topic, c)
    ensures KeysOk(topic, Step(topic, c, a))
  {
    if c.phase.Busy? {
      assert Holds(topic, c.phase.p, c.phase.off, c.phase.m.event);
    }
    forall id | id in Step(topic, c, a).processed
      ensures exists e :: e in Step(topic, c, a).projected && e.eventId == id
    {
      if id in c.processed {
        var e :| e in c.projected && e.eventId == id;
        assert e in Step(topic, c, a).projected;
      }
    }
  }

  lemma {:induction false} ConsumerStepQueue(w: World, a: Action)
    requires HasCommitted(w.topic, w.c) && AtHand(w.topic, w.c) && QueueOk(w)
    ensures QueueOk(Next(w, Consume(a)))
  {
    if w.c.phase.Busy? {
      assert Holds(w.topic, w.c.phase.p, w.c.phase.off, w.c.phase.m.event);
    }
  }

  lemma {:induction false} ConsumeLosesNothing(w: World, a: Action)
    requires NothingLost(w) && SendsArrive(Consume(a))
    ensures NothingLost(Next(w, Consume(a)))
  {
    var w' := Next(w, Consume(a));
    ConsumerStepIsSafe(w, a);
    ConsumerStepAtHand(w.topic, w.c, a);
    ConsumerStepKeys(w.topic, w.c, a);
    ConsumerStepQueue(w, a);
    forall e | OnTopic(w.topic, e) ensures Safe(w', e) {
      if Keeps(w, w') {
        KeptIsSafe(w, w', e);
      } else {
        assert Holds(w.topic, w.c.phase.p, w.c.phase.off, w.c.phase.m.event);
        PassedIsSafe(w, w'.c, w.c.phase.p, w.c.phase.off, w.c.phase.m.event, e);
      }
    }
  }

  // ---------------------------------------------------------------- producers and the retry handler

  lemma {:induction false} OnTopicPut(topic: Topic, p: nat, m: Message, e: Event)
    requires p < |topic|
    ensures OnTopic(Put(topic, p, m), e) <==> OnTopic(topic, e) || e == m.event
  {
    var topic' := Put(topic, p, m);
    if e == m.event {
      assert Holds(topic', p, |topic[p]|, e);
    }
    if OnTopic(topic, e) {
      var q, i :| Holds(topic, q, i, e);
      HoldsPut(topic, p, m, q, i, e);
    }
    if OnTopic(topic', e) && e != m.event {
      var q, i :| Holds(topic', q, i, e);
      assert Holds(topic, q, i, e);
    }
  }

  /** A new entry is not yet passed. */
  lemma {:induction false} PutIsSafe(w: World, p: nat, m: Message)
    requires NothingLost(w) && p < |w.topic| && IdsUnique(Put(w.topic, p, m))
    ensures NothingLost(w.(topic := Put(w.topic, p, m))) && Waiting(w.(topic := Put(w.topic, p, m)), m.event)
  {
    var w' := w.(topic := Put(w.topic, p, m));
    assert Holds(w'.topic, p, |w.topic[p]|, m.event);
    forall q, i, e | Holds(w.topic, q, i, e) ensures Holds(w'.topic, q, i, e) {
      HoldsPut(w.topic, p, m, q, i, e);
    }
    forall e ensures OnTopic(w'.topic, e) <==> OnTopic(w.topic, e) || e == m.event {
      OnTopicPut(w.topic, p, m, e);
    }
    forall e | OnTopic(w'.topic, e) ensures Safe(w', e) {
      if e != m.event {
        KeptIsSafe(w, w', e);
      }
    }
  }

  /** Another copy of an event does not disturb the ids. */
  lemma {:induction false} CopyKeepsIds(topic: Topic, p: nat, m: Message)
    requires IdsUnique(topic) && p < |topic| && OnTopic(topic, m.event)
    ensures IdsUnique(Put(topic, p, m))
  {
    var topic' := Put(topic, p, m);
    var q0, i0 :| Holds(topic, q0, i0, m.event);
    forall q, i, e, r, j, f | Holds(topic', q, i, e) && Holds(topic', r, j, f) && e.eventId == f.eventId
      ensures e == f
    {
      assert Holds(topic, q, i, e) || e == m.event;
      assert Holds(topic, r, j, f) || f == m.event;
    }
  }

  /** A message may be settled once its event is safe without it. */
  lemma {:induction false} SettleIsSafe(w: World, id: nat)
    requires NothingLost(w) && id in w.c.dlq
    requires w.c.dlq[id].event in w.dead || Waiting(w, w.c.dlq[id].event)
    ensures NothingLost(w.(settled := w.settled + {id}))
  {
    var w' := w.(settled := w.settled + {id});
    forall e | OnTopic(w.topic, e) ensures Safe(w', e) {
      assert Safe(w, e);
      assert Waiting(w, e) ==> Waiting(w', e);
      if Queued(w, e) {
        var k :| k in w.c.dlq && k !in w.settled && w.c.dlq[k].event == e;
        assert k == id || k !in w'.settled;
      }
    }
  }

  lemma {:induction false} RepublishLosesNothing(w: World, id: nat, p: nat, outcome: Outcome)
    requires NothingLost(w)
    ensures NothingLost(Next(w, Republish(id, p, outcome)))
  {
    if id in w.c.dlq && w.c.dlq[id].retryCount < MAX_RETRIES && p < |w.topic| && outcome != Raised {
      var m := Message(w.c.dlq[id].event, w.c.dlq[id].retryCount + 1);
      CopyKeepsIds(w.topic, p, m);
      PutIsSafe(w, p, m);
      if outcome == Ok {
        SettleIsSafe(w.(topic := Put(w.topic, p, m)), id);
      }
    }
  }

  lemma {:induction false} DeadLetterLosesNothing(w: World, id: nat, outcome: Outcome)
    requires NothingLost(w)
    ensures NothingLost(Next(w, DeadLetter(id, outcome)))
  {
    if id in w.c.dlq && w.c.dlq[id].retryCount >= MAX_RETRIES && outcome != Raised {
      var w1 := w.(dead := w.dead + {w.c.dlq[id].event});
      forall e | OnTopic(w.topic, e) ensures Safe(w1, e) {
        KeptIsSafe(w, w1, e);
      }
      if outcome == Ok {
        SettleIsSafe(w1, id);
      }
    }
  }

  lemma {:induction false} DeleteLosesNothing(w: World, id: nat, outcome: Outcome)
    requires NothingLost(w)
    ensures NothingLost(Next(w, Delete(id, outcome)))
  {
    var w' := Next(w, Delete(id, outcome));
    forall e | OnTopic(w.topic, e) ensures Safe(w', e) {
      KeptIsSafe(w, w', e);
    }
  }

  lemma {:induction false} NextLosesNothing(w: World, move: Move)
    requires NothingLost(w) && SendsArrive(move)
    ensures NothingLost(Next(w, move))
  {
    match move {
      case Produce(e) =>
        if CanProduce(w.topic, e) {
          PutIsSafe(w, PartitionOf(e.orderId, |w.topic|), Message(e, 0));
        }
      case Consume(a) => ConsumeLosesNothing(w, a);
      case Republish(id, p, outcome) => RepublishLosesNothing(w, id, p, outcome);
      case DeadLetter(id, outcome) => DeadLetterLosesNothing(w, id, outcome);
      case Delete(id, outcome) => DeleteLosesNothing(w, id, outcome);
    }
  }

  lemma {:induction false} RunLosesNothing(partitions: nat, moves: seq<Move>)
    requires forall i :: 0 <= i < |moves| ==> SendsArrive(moves[i])
    ensures NothingLost(Run(partitions, moves))
  {
    if moves == [] {
      assert forall p, i, e :: !Holds(EmptyTopic(partitions), p, i, e);
    } else {
      RunLosesNothing(partitions, moves[..|moves| - 1]);
      NextLosesNothing(Run(partitions, moves[..|moves| - 1]), moves[|moves| - 1]);
    }
  }

  /** After every step, crashes included, each event that was ever published is uncommitted in Kafka, projected, in the
      queue, or in dead-letter storage. */
  lemma {:induction false} NoEventIsLost(partitions: nat, moves: seq<Move>, e: Event)
    requires forall i :: 0 <= i < |moves| ==> SendsArrive(moves[i])
    requires OnTopic(Run(partitions, moves).topic, e)
    ensures var w := Run(partitions, moves);
            Placed(w, e)
  {
    RunLosesNothing(partitions, moves);
    var w := Run(partitions, moves);
    assert Safe(w, e);
    if Waiting(w, e) {
      var p, i :| 0 <= p < |w.c.committed| && Holds(w.topic, p, i, e) && i >= Passed(w.c, p);
      assert i >= w.c.committed[p];
    }
  }
}
