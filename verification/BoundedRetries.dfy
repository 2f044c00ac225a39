/** How often an event can go round the retry circuit (lambda_handlers/retry_handler.py, consumers/main.py). */
module BoundedRetries {
  import opened Consumer
  import opened Events
  import opened RetryCircuit
  import opened Topics

  // ---------------------------------------------------------------- the counter

  ghost predicate CountersBounded(w: World)
  {
    && (forall p, i :: 0 <= p < |w.topic| && 0 <= i < |w.topic[p]| ==> w.topic[p][i].retryCount <= MAX_RETRIES)
    && (forall id :: id in w.c.dlq ==> w.c.dlq[id].retryCount <= MAX_RETRIES)
    && (w.c.phase.Busy? ==> w.c.phase.m.retryCount <= MAX_RETRIES)
  }

  /** In any run whatever, no message in Kafka, in the queue or at the consumer ever counts more than three retries. */
  lemma {:induction false} RetryCountNeverExceedsLimit(partitions: nat, moves: seq<Move>)
    ensures CountersBounded(RetryCircuit.Run(partitions, moves))
  {
    if moves != [] {
      var w := RetryCircuit.Run(partitions, moves[..|moves| - 1]);
      RetryCountNeverExceedsLimit(partitions, moves[..|moves| - 1]);
      NextKeepsCounters(w, moves[|moves| - 1]);
    }
  }

  lemma NextKeepsCounters(w: World, move: Move)
    requires CountersBounded(w)
    ensures CountersBounded(Next(w, move))
  {
  }

  // ---------------------------------------------------------------- a potential over all copies

  /** What a copy weighs by its retry count, in Kafka and in the queue; only copies of `event`, if one is given. */
  datatype Scale = Scale(kafka: seq<nat>, queue: seq<nat>, event: Option<Event>)

  function Entry(t: seq<nat>, rc: nat): nat
  {
    if rc < |t| then t[rc] else 0
  }

  function Counts(sc: Scale, e: Event): bool
  {
    sc.event.None? || sc.event.value == e
  }

  function InKafka(sc: Scale, m: Message): nat
  {
    if Counts(sc, m.event) then Entry(sc.kafka, m.retryCount) else 0
  }

  function InQueue(sc: Scale, m: Message): nat
  {
    if Counts(sc, m.event) then Entry(sc.queue, m.retryCount) else 0
  }

  function Sum(v: seq<nat>): nat
  {
    if v == [] then 0 else Sum(v[..|v| - 1]) + v[|v| - 1]
  }

  lemma {:induction false} SumSnoc(v: seq<nat>, x: nat)
    ensures Sum(v + [x]) == Sum(v) + x
  {
    assert (v + [x])[..|v|] == v;
  }

  lemma {:induction false} SumUpdate(v: seq<nat>, i: nat, x: nat)
    requires i < |v|
    ensures Sum(v[i := x]) == Sum(v) - v[i] + x
  {
    var n := |v| - 1;
    if i < n {
      SumUpdate(v[..n], i, x);
      assert v[i := x][..n] == v[..n][i := x];
    } else {
      assert v[i := x][..n] == v[..n];
    }
  }

  function Weigh(sc: Scale, ms: seq<Message>): nat
  {
    if ms == [] then 0 else InKafka(sc, ms[0]) + Weigh(sc, ms[1..])
  }

  lemma {:induction false} WeighSnoc(sc: Scale, ms: seq<Message>, m: Message)
    ensures Weigh(sc, ms + [m]) == Weigh(sc, ms) + InKafka(sc, m)
  {
    if ms != [] {
      WeighSnoc(sc, ms[1..], m);
      assert (ms + [m])[1..] == ms[1..] + [m];
    } else {
      assert ms + [m] == [m];
    }
  }

  /** The consumer's position in a partition: behind the message at hand. */
  function Position(c: State, p: nat): nat
    requires p < |c.committed|
  {
    if c.phase.Busy? && c.phase.p == p then c.phase.off + 1 else c.committed[p]
  }

  ghost predicate Positioned(w: World)
  {
    && |w.c.committed| == |w.topic|
    && (forall p :: 0 <= p < |w.topic| ==> Position(w.c, p) <= |w.topic[p]|)
    && (w.c.phase.Busy? ==> w.c.phase.p < |w.topic|)
    && (forall id :: id in w.c.dlq || id in w.settled ==> id < w.c.sends)
  }

  ghost function Ahead(w: World, sc: Scale): seq<nat>
    requires Positioned(w)
  {
    seq(|w.topic|, p requires 0 <= p < |w.topic| => Weigh(sc, w.topic[p][Position(w.c, p)..]))
  }

  function AtConsumer(c: State, sc: Scale): nat
  {
    if c.phase.Busy? && c.phase.at != AtClose then InKafka(sc, c.phase.m) else 0
  }

  function InQueues(w: World, sc: Scale): seq<nat>
  {
    seq(w.c.sends, id => if id in w.c.dlq && id !in w.settled then InQueue(sc, w.c.dlq[id]) else 0)
  }

  ghost function Potential(w: World, sc: Scale): nat
    requires Positioned(w)
  {
    Sum(Ahead(w, sc)) + AtConsumer(w.c, sc) + Sum(InQueues(w, sc))
  }

  /** The crash-free steps in which every queue message is handled once. */
  predicate Smooth(w: World, move: Move)
  {
    match move
    case Produce(_) => true
    case Consume(a) => !a.Crash? && (a.Commit? && IsAt(w.c, AtClose) ==> a.outcome == Ok)
    case Republish(id, _, outcome) => id !in w.settled && outcome != LostReply
    case DeadLetter(id, _) => id !in w.settled
    case Delete(_, _) => true
  }

  // ---------------------------------------------------------------- what each step does to the potential

  predicate FailedDelivery(w: World, move: Move, e: Event)
  {
    move.Consume? && move.action.SendDlq? && IsAt(w.c, AtDlq) && w.c.phase.m.event == e
  }

  predicate Republishes(w: World, move: Move, e: Event)
  {
    && move.Republish? && move.outcome == Ok && move.p < |w.topic|
    && move.id in w.c.dlq && w.c.dlq[move.id].retryCount < MAX_RETRIES && w.c.dlq[move.id].event == e
  }

  predicate DeadLetters(w: World, move: Move, e: Event)
  {
    && move.DeadLetter? && move.outcome == Ok
    && move.id in w.c.dlq && w.c.dlq[move.id].retryCount >= MAX_RETRIES && w.c.dlq[move.id].event == e
  }

  ghost predicate Produces(w: World, move: Move, e: Event)
  {
    move.Produce? && move.event == e && CanProduce(w.topic, e)
  }

  lemma ConsumerStepPositioned(w: World, a: Action)
    requires Positioned(w) && Smooth(w, Consume(a))
    ensures Positioned(Next(w, Consume(a)))
    ensures a.Fetch? || (forall p :: 0 <= p < |w.topic| ==> Position(Next(w, Consume(a)).c, p) == Position(w.c, p))
  {
  }

  /** Fetching moves a copy from the partition to the consumer. */
  lemma {:induction false} FetchFlow(w: World, p: nat, sc: Scale)
    requires Positioned(w) && Positioned(Next(w, Consume(Fetch(p))))
    ensures Potential(Next(w, Consume(Fetch(p))), sc) == Potential(w, sc)
  {
    var w' := Next(w, Consume(Fetch(p)));
    assert InQueues(w', sc) == InQueues(w, sc);
    if w' == w {
    } else {
      var rest := w.topic[p][w.c.committed[p]..];
      assert rest[1..] == w.topic[p][w.c.committed[p] + 1..];
      assert Ahead(w', sc) == Ahead(w, sc)[p := Weigh(sc, rest[1..])];
      SumUpdate(Ahead(w, sc), p, Weigh(sc, rest[1..]));
    }
  }

  /** Any other smooth consumer step leaves the partitions alone. */
  lemma {:induction false} ConsumerFlow(w: World, a: Action, sc: Scale)
    requires Positioned(w) && Smooth(w, Consume(a)) && !a.Fetch? && !a.SendDlq?
    ensures Positioned(Next(w, Consume(a))) && Potential(Next(w, Consume(a)), sc) <= Potential(w, sc)
  {
    var w' := Next(w, Consume(a));
    ConsumerStepPositioned(w, a);
    assert Ahead(w', sc) == Ahead(w, sc);
    assert InQueues(w', sc) == InQueues(w, sc);
    assert AtConsumer(w'.c, sc) <= AtConsumer(w.c, sc);
  }

  /** A failed delivery turns a Kafka copy into a queue copy. */
  lemma {:induction false} SendFlow(w: World, outcome: Outcome, sc: Scale)
    requires Positioned(w)
    ensures Positioned(Next(w, Consume(SendDlq(outcome))))
    ensures !IsAt(w.c, AtDlq) ==> Next(w, Consume(SendDlq(outcome))) == w
    ensures IsAt(w.c, AtDlq) ==>
              (Potential(Next(w, Consume(SendDlq(outcome))), sc) ==
               Potential(w, sc) - InKafka(sc, w.c.phase.m) +
                   (if outcome == Raised then 0 else InQueue(sc, w.c.phase.m)))
  {
    var w' := Next(w, Consume(SendDlq(outcome)));
    ConsumerStepPositioned(w, SendDlq(outcome));
    if IsAt(w.c, AtDlq) {
      assert Ahead(w', sc) == Ahead(w, sc);
      if outcome == Raised {
        assert InQueues(w', sc) == InQueues(w, sc);
      } else {
        assert w.c.sends !in w.settled;
        assert InQueues(w', sc) == InQueues(w, sc) + [InQueue(sc, w.c.phase.m)];
        SumSnoc(InQueues(w, sc), InQueue(sc, w.c.phase.m));
      }
    }
  }

  lemma {:induction false} PutFlow(w: World, p: nat, m: Message, sc: Scale)
    requires Positioned(w) && p < |w.topic|
    ensures Positioned(w.(topic := Put(w.topic, p, m)))
    ensures Potential(w.(topic := Put(w.topic, p, m)), sc) == Potential(w, sc) + InKafka(sc, m)
  {
    var w' := w.(topic := Put(w.topic, p, m));
    var at := Position(w.c, p);
    assert Positioned(w');
    assert w'.topic[p][at..] == w.topic[p][at..] + [m];
    WeighSnoc(sc, w.topic[p][at..], m);
    assert Ahead(w', sc) == Ahead(w, sc)[p := Weigh(sc, w'.topic[p][at..])];
    SumUpdate(Ahead(w, sc), p, Weigh(sc, w'.topic[p][at..]));
    assert InQueues(w', sc) == InQueues(w, sc);
  }

  lemma {:induction false} SettleFlow(w: World, id: nat, sc: Scale)
    requires Positioned(w) && id in w.c.dlq && id !in w.settled
    ensures Positioned(w.(settled := w.settled + {id}))
    ensures Potential(w.(settled := w.settled + {id}), sc) == Potential(w, sc) - InQueue(sc, w.c.dlq[id])
  {
    var w' := w.(settled := w.settled + {id});
    assert Positioned(w');
    assert InQueues(w', sc) == InQueues(w, sc)[id := 0];
    SumUpdate(InQueues(w, sc), id, 0);
    assert Ahead(w', sc) == Ahead(w, sc);
  }

  /** The balance of one smooth step. */
  ghost function Gain(w: World, move: Move, sc: Scale): int
  {
    match move
    case Produce(e) => if CanProduce(w.topic, e) then InKafka(sc, Message(e, 0)) else 0
    case Consume(a) =>
      if a.SendDlq? && IsAt(w.c, AtDlq) then
        (if a.outcome == Raised then 0 else InQueue(sc, w.c.phase.m)) - InKafka(sc, w.c.phase.m)
      else 0
    case Republish(id, _, _) =>
      if id in w.c.dlq && Republishes(w, move, w.c.dlq[id].event)
      then InKafka(sc, Message(w.c.dlq[id].event, w.c.dlq[id].retryCount + 1)) - InQueue(sc, w.c.dlq[id]) else 0
    case DeadLetter(id, _) =>
      if id in w.c.dlq && DeadLetters(w, move, w.c.dlq[id].event) then -(InQueue(sc, w.c.dlq[id]) as int) else 0
    case Delete(_, _) => 0
  }

  lemma {:induction false} ConsumeFlow(w: World, a: Action, sc: Scale)
    requires Positioned(w) && Smooth(w, Consume(a))
    ensures Positioned(Next(w, Consume(a))) &&
        Potential(Next(w, Consume(a)), sc) <= Potential(w, sc) + Gain(w, Consume(a), sc)
  {
    if a.Fetch? {
      ConsumerStepPositioned(w, a);
      FetchFlow(w, a.p, sc);
    } else if a.SendDlq? {
      SendFlow(w, a.outcome, sc);
    } else {
      ConsumerFlow(w, a, sc);
    }
  }

  lemma {:induction false} RepublishFlow(w: World, id: nat, p: nat, outcome: Outcome, sc: Scale)
    requires Positioned(w) && Smooth(w, Republish(id, p, outcome))
    ensures var w' := Next(w, Republish(id, p, outcome));
            Positioned(w') && Potential(w', sc) <= Potential(w, sc) + Gain(w, Republish(id, p, outcome), sc)
  {
    if id in w.c.dlq && w.c.dlq[id].retryCount < MAX_RETRIES && p < |w.topic| && outcome == Ok {
      var m := Message(w.c.dlq[id].event, w.c.dlq[id].retryCount + 1);
      var w1 := w.(topic := Put(w.topic, p, m));
      PutFlow(w, p, m, sc);
      SettleFlow(w1, id, sc);
      assert Next(w, Republish(id, p, outcome)) == w1.(settled := w1.settled + {id});
      assert Gain(w, Republish(id, p, outcome), sc) == InKafka(sc, m) - InQueue(sc, w.c.dlq[id]);
    }
  }

  lemma {:induction false} SameCopies(w: World, w': World, sc: Scale)
    requires Positioned(w) && w'.topic == w.topic && w'.settled == w.settled
    requires w'.c.committed == w.c.committed && w'.c.phase == w.c.phase && w'.c.sends == w.c.sends
    requires forall id :: id !in w.settled ==>
        (id in w.c.dlq <==> id in w'.c.dlq) && (id in w.c.dlq ==> w.c.dlq[id] == w'.c.dlq[id])
    ensures Positioned(w') && Potential(w', sc) == Potential(w, sc)
  {
    forall id | id in w'.c.dlq ensures id < w.c.sends {
      if id !in w.settled {
        assert id in w.c.dlq;
      }
    }
    assert Positioned(w');
    assert Ahead(w', sc) == Ahead(w, sc);
    assert InQueues(w', sc) == InQueues(w, sc);
  }

  lemma {:induction false} DeadLetterFlow(w: World, id: nat, outcome: Outcome, sc: Scale)
    requires Positioned(w) && Smooth(w, DeadLetter(id, outcome))
    ensures var w' := Next(w, DeadLetter(id, outcome));
            Positioned(w') && Potential(w', sc) <= Potential(w, sc) + Gain(w, DeadLetter(id, outcome), sc)
  {
    if id in w.c.dlq && w.c.dlq[id].retryCount >= MAX_RETRIES && outcome != Raised {
      var w1 := w.(dead := w.dead + {w.c.dlq[id].event});
      SameCopies(w, w1, sc);
      if outcome == Ok {
        SettleFlow(w1, id, sc);
      }
    }
  }

  lemma {:induction false} Flow(w: World, move: Move, sc: Scale)
    requires Positioned(w) && Smooth(w, move)
    ensures Positioned(Next(w, move)) && Potential(Next(w, move), sc) <= Potential(w, sc) + Gain(w, move, sc)
  {
    match move {
      case Produce(e) =>
        if CanProduce(w.topic, e) {
          PutFlow(w, PartitionOf(e.orderId, |w.topic|), Message(e, 0), sc);
        }
      case Consume(a) => ConsumeFlow(w, a, sc);
      case Republish(id, p, outcome) => RepublishFlow(w, id, p, outcome, sc);
      case DeadLetter(id, outcome) => DeadLetterFlow(w, id, outcome, sc);
      case Delete(_, _) => SameCopies(w, Next(w, move), sc);
    }
  }

  // ---------------------------------------------------------------- main results

  const MEASURE := Scale([8, 6, 4, 2], [7, 5, 3, 1], None)

  /** The measure over all Kafka and queue copies never rises except by a producer, and strictly falls at each failed
      delivery and each successful step of the retry handler. */
  lemma {:induction false} MeasureFalls(w: World, move: Move, e: Event)
    requires Positioned(w) && CountersBounded(w) && Smooth(w, move) && !move.Produce?
    ensures Positioned(Next(w, move)) && Potential(Next(w, move), MEASURE) <= Potential(w, MEASURE)
    ensures FailedDelivery(w, move, e) || Republishes(w, move, e) || DeadLetters(w, move, e) ==>
              Potential(Next(w, move), MEASURE) < Potential(w, MEASURE)
  {
    Flow(w, move, MEASURE);
    MeasureGain(w, move, e);
  }

  lemma MeasureGain(w: World, move: Move, e: Event)
    requires CountersBounded(w) && !move.Produce?
    ensures Gain(w, move, MEASURE) <= 0
    ensures FailedDelivery(w, move, e) || Republishes(w, move, e) || DeadLetters(w, move, e) ==>
        Gain(w, move, MEASURE) < 0
  {
  }

  ghost predicate SmoothRun(partitions: nat, moves: seq<Move>)
  {
    forall i :: 0 <= i < |moves| ==> Smooth(RetryCircuit.Run(partitions, moves[..i]), moves[i])
  }

  /** How many moves of a run satisfy `f` in the state they are made in. */
  ghost function Count(partitions: nat, moves: seq<Move>, f: (World, Move) -> bool): nat
  {
    if moves == [] then 0 else
      var n := |moves| - 1;
      Count(partitions, moves[..n], f) + if f(RetryCircuit.Run(partitions, moves[..n]), moves[n]) then 1 else 0
  }

  lemma {:induction false} SmoothPrefix(partitions: nat, moves: seq<Move>)
    requires SmoothRun(partitions, moves) && moves != []
    ensures SmoothRun(partitions, moves[..|moves| - 1])
  {
    var init := moves[..|moves| - 1];
    forall i | 0 <= i < |init| ensures Smooth(RetryCircuit.Run(partitions, init[..i]), init[i]) {
      assert init[..i] == moves[..i];
    }
  }

  /** Each published copy of an event is re-published at most three times and fails at most four deliveries. */
  lemma {:induction false} RetriesAreBounded(partitions: nat, moves: seq<Move>, e: Event)
    requires SmoothRun(partitions, moves)
    ensures var published := Count(partitions, moves, (w, m) => Produces(w, m, e));
            && Count(partitions, moves, (w, m) => Republishes(w, m, e)) <= 3 * published
            && Count(partitions, moves, (w, m) => FailedDelivery(w, m, e)) <= 4 * published
  {
    RetryBudget(partitions, moves, e);
  }

  /** Re-publications a copy may still see. */
  function Republications(e: Event): Scale
  {
    Scale([3, 2, 1, 0], [3, 2, 1, 0], Some(e))
  }

  /** Failed deliveries a copy may still see. */
  function Failures(e: Event): Scale
  {
    Scale([4, 3, 2, 1], [3, 2, 1, 0], Some(e))
  }

  lemma {:induction false} StepBudget(w: World, move: Move, e: Event)
    requires Positioned(w) && CountersBounded(w) && Smooth(w, move)
    ensures Positioned(Next(w, move))
    ensures (if Republishes(w, move, e) then 1 else 0) + Potential(Next(w, move), Republications(e))
            <= Potential(w, Republications(e)) + (if Produces(w, move, e) then 3 else 0)
    ensures (if FailedDelivery(w, move, e) then 1 else 0) + Potential(Next(w, move), Failures(e))
            <= Potential(w, Failures(e)) + (if Produces(w, move, e) then 4 else 0)
  {
    Flow(w, move, Republications(e));
    RepublicationGain(w, move, e);
    Flow(w, move, Failures(e));
    FailureGain(w, move, e);
  }

  lemma RepublicationGain(w: World, move: Move, e: Event)
    requires CountersBounded(w)
    ensures (if Republishes(w, move, e) then 1 else 0) + Gain(w, move, Republications(e)) <=
            if Produces(w, move, e) then 3 else 0
  {
  }

  lemma FailureGain(w: World, move: Move, e: Event)
    requires CountersBounded(w)
    ensures (if FailedDelivery(w, move, e) then 1 else 0) + Gain(w, move, Failures(e)) <=
            if Produces(w, move, e) then 4 else 0
  {
  }

  lemma {:induction false} RetryBudget(partitions: nat, moves: seq<Move>, e: Event)
    requires SmoothRun(partitions, moves)
    ensures var w := RetryCircuit.Run(partitions, moves);
            var published := Count(partitions, moves, (w, m) => Produces(w, m, e));
            && Positioned(w)
            && Count(partitions, moves, (w, m) => Republishes(w, m, e)) +
                  Potential(w, Republications(e)) <= 3 * published
            && Count(partitions, moves, (w, m) => FailedDelivery(w, m, e)) + Potential(w, Failures(e)) <= 4 * published
  {
    if moves == [] {
      NothingAhead(partitions, Republications(e));
      NothingAhead(partitions, Failures(e));
    } else {
      var n := |moves| - 1;
      SmoothPrefix(partitions, moves);
      RetryBudget(partitions, moves[..n], e);
      RetryCountNeverExceedsLimit(partitions, moves[..n]);
      assert Smooth(RetryCircuit.Run(partitions, moves[..n]), moves[n]);
      StepBudget(RetryCircuit.Run(partitions, moves[..n]), moves[n], e);
    }
  }

  lemma {:induction false} NothingAhead(partitions: nat, sc: Scale)
    ensures Positioned(RetryCircuit.Begin(partitions)) && Potential(RetryCircuit.Begin(partitions), sc) == 0
  {
    var w := RetryCircuit.Begin(partitions);
    assert forall p :: 0 <= p < partitions ==> w.topic[p][0..] == [];
    ZeroSum(Ahead(w, sc));
  }

  lemma {:induction false} ZeroSum(v: seq<nat>)
    requires forall i :: 0 <= i < |v| ==> v[i] == 0
    ensures Sum(v) == 0
  {
    if v != [] {
      ZeroSum(v[..|v| - 1]);
    }
  }
}
