/** Item rows and totals after any run of the whole system: overlapping commands, crashes, exceptions, expired keys and
    retries in any order (api/routers/command_router.py, consumers/main.py, lambda_handlers/retry_handler.py). */
module Convergence {
  import opened Aggregate
  import opened Agreement
  import opened CrashSafety
  import opened Events
  import opened EventStore
  import opened Pipeline
  import opened ReadModel
  import opened Rebuild
  import opened RetryCircuit
  import opened Seqs
  import opened Topics
  import Consumer
  import WriteSide

  /** The hypothesis: sends to the queue do not fail. */
  predicate Arrives(move: Pipeline.Move)
  {
    move.Consume? ==> SendsArrive(RetryCircuit.Consume(move.action))
  }

  // ---------------------------------------------------------------- nothing is lost on the way

  /** Stored events have distinct ids, and only stored events are on the topic. */
  lemma {:induction false} StoredIdsUnique(s: System)
    requires WriteSide.StoreInv(s.write) && AllStored(s)
    ensures IdsUnique(s.write.topic)
  {
    var topic := s.write.topic;
    forall p, i, e, q, j, f | Holds(topic, p, i, e) && Holds(topic, q, j, f) && e.eventId == f.eventId ensures e == f {
      assert e in s.write.docs && f in s.write.docs;
    }
  }

  ghost predicate Sound(s: System)
  {
    WriteSide.StoreInv(s.write) && AllStored(s) && NothingLost(Circuit(s))
  }

  lemma {:induction false} CommandIsSound(s: System, a: WriteSide.Action)
    requires Sound(s)
    ensures Sound(Pipeline.Next(s, Command(a)))
  {
    var s' := Pipeline.Next(s, Command(a));
    WriteSide.StepKeepsStore(s.write, a);
    CommandKeepsStored(s, a);
    StoredIdsUnique(s');
    if s'.write.topic != s.write.topic {
      var p, m := SentMessage(s.write, a);
      PutIsSafe(Circuit(s), p, m);
    }
  }

  lemma {:induction false} SentMessage(w: WriteSide.State, a: WriteSide.Action) returns (p: nat, m: Message)
    requires WriteSide.Step(w, a).topic != w.topic
    ensures p < |w.topic| && WriteSide.Step(w, a).topic == Put(w.topic, p, m)
  {
    var e := w.handlers[a.h].event;
    p, m := PartitionOf(e.orderId, |w.topic|), Message(e, 0);
  }

  lemma {:induction false} StepIsSound(s: System, move: Pipeline.Move)
    requires Sound(s) && Arrives(move)
    ensures Sound(Pipeline.Next(s, move))
  {
    match move {
      case Command(a) => CommandIsSound(s, a);
      case Consume(a) =>
        ConsumeKeepsStored(s, a);
        ConsumeLosesNothing(Circuit(s), a);
      case Retry(step) =>
        RetryKeepsStored(s, step);
        if IsHandlerStep(step) {
          NextLosesNothing(Circuit(s), step);
        }
    }
  }

  lemma {:induction false} RunIsSound(partitions: nat, moves: seq<Pipeline.Move>)
    requires forall i :: 0 <= i < |moves| ==> Arrives(moves[i])
    ensures Sound(Pipeline.Run(partitions, moves))
  {
    if moves == [] {
      assert forall p, i, e :: !Holds(EmptyTopic(partitions), p, i, e);
    } else {
      RunIsSound(partitions, moves[..|moves| - 1]);
      StepIsSound(Pipeline.Run(partitions, moves[..|moves| - 1]), moves[|moves| - 1]);
    }
  }

  // ---------------------------------------------------------------- the tables as attempts

  /** The tables come from these attempts, which are of stored events and include every projected one. */
  ghost predicate Recorded(s: System, attempts: seq<Attempt>)
  {
    && s.c.tables == Fold(Attempted, EMPTY, attempts)
    && (forall i :: 0 <= i < |attempts| ==> attempts[i].event in s.write.docs)
    && (forall e :: e in s.c.projected ==> exists i :: Landed(attempts, i, e))
  }

  lemma RecordedStays(s: System, s': System, attempts: seq<Attempt>)
    requires Recorded(s, attempts) && s'.c.tables == s.c.tables && s'.c.projected == s.c.projected
    requires forall e :: e in s.write.docs ==> e in s'.write.docs
    ensures Recorded(s', attempts)
  {
  }

  lemma {:induction false} RecordedProjection(s: System, s': System, attempts: seq<Attempt>, e: Event)
    requires Recorded(s, attempts) && e in s.write.docs && Project(s.c.tables, e).Some?
    requires s'.write == s.write && s'.c.tables == Projected(s.c.tables, e) && s'.c.projected == s.c.projected + {e}
    ensures Recorded(s', attempts + [Attempt(e, false)])
  {
    var all := attempts + [Attempt(e, false)];
    FoldSnoc(Attempted, EMPTY, attempts, Attempt(e, false));
    assert all[..|attempts|] == attempts;
    assert Landed(all, |attempts|, e);
    forall f | f in s.c.projected ensures exists i :: Landed(all, i, f) {
      var i: nat :| Landed(attempts, i, f);
      assert all[..i] == attempts[..i];
      assert Landed(all, i, f);
    }
  }

  /** What a step does to the tables. */
  lemma {:induction false} OnlyProjectionsWrite(s: System, move: Pipeline.Move)
    ensures var s' := Pipeline.Next(s, move);
            || (s'.c.tables == s.c.tables && s'.c.projected == s.c.projected)
            || (s'.write == s.write && s.c.phase.Busy? && Project(s.c.tables, s.c.phase.m.event).Some? &&
                s'.c.tables == Projected(s.c.tables, s.c.phase.m.event) &&
                s'.c.projected == s.c.projected + {s.c.phase.m.event})
    ensures forall e :: e in s.write.docs ==> e in Pipeline.Next(s, move).write.docs
  {
    if move.Consume? {
      ConsumerWrites(s.write.topic, s.c, move.action);
    }
  }

  lemma ConsumerWrites(topic: Topic, c: Consumer.State, a: Consumer.Action)
    ensures var c' := Consumer.Step(topic, c, a);
            || (c'.tables == c.tables && c'.projected == c.projected)
            || (c.phase.Busy? && Project(c.tables, c.phase.m.event).Some? &&
                c'.tables == Projected(c.tables, c.phase.m.event) && c'.projected == c.projected + {c.phase.m.event})
  {
  }

  lemma {:induction false} History(partitions: nat, moves: seq<Pipeline.Move>) returns (attempts: seq<Attempt>)
    requires forall i :: 0 <= i < |moves| ==> Arrives(moves[i])
    ensures Recorded(Pipeline.Run(partitions, moves), attempts)
  {
    if moves == [] {
      attempts := [];
    } else {
      var init, move := moves[..|moves| - 1], moves[|moves| - 1];
      var s := Pipeline.Run(partitions, init);
      var before := History(partitions, init);
      RunIsSound(partitions, init);
      attempts := HistoryStep(s, move, before);
    }
  }

  lemma {:induction false} HistoryStep(s: System, move: Pipeline.Move, before: seq<Attempt>)
      returns (attempts: seq<Attempt>)
    requires Recorded(s, before) && AllStored(s)
    ensures Recorded(Pipeline.Next(s, move), attempts)
  {
    var s' := Pipeline.Next(s, move);
    OnlyProjectionsWrite(s, move);
    if s'.c.tables == s.c.tables && s'.c.projected == s.c.projected {
      attempts := before;
      RecordedStays(s, s', before);
    } else {
      attempts := before + [Attempt(s.c.phase.m.event, false)];
      RecordedProjection(s, s', before, s.c.phase.m.event);
    }
  }

  // ---------------------------------------------------------------- main result

  /** Nothing of the order waits in Kafka, in the queue or as a dead letter. */
  ghost predicate Quiet(s: System, oid: Id)
  {
    && |s.c.committed| == |s.write.topic|
    && (forall p :: 0 <= p < |s.write.topic| ==> s.c.committed[p] == |s.write.topic[p]|)
    && (forall id :: id in s.c.dlq ==> s.c.dlq[id].event.orderId != oid)
    && (forall e :: e in s.dead ==> e.orderId != oid)
  }

  /** Every stored line of the order was published, and nothing of the order is on its way. */
  ghost predicate Settled(s: System, oid: Id)
  {
    && (forall e :: e in OrderLog(s.write.docs, oid) && e.payload.ItemAdded? ==> OnTopic(s.write.topic, e))
    && Quiet(s, oid)
  }

  lemma {:induction false} QuietIsProjected(s: System, oid: Id, e: Event)
    requires Sound(s) && Quiet(s, oid) && OnTopic(s.write.topic, e) && e.orderId == oid
    ensures e in s.c.projected
  {
    assert Safe(Circuit(s), e);
  }

  /** After every run of the whole system in which sends to the queue arrive, however commands overlapped, the consumer
      crashed or raised, keys expired and retries overtook each other: once an order with distinct products is settled,
      its item rows and total are those of the aggregate rebuilt from the event store. */
  lemma {:induction false} ItemsConvergeInEveryRun(partitions: nat, moves: seq<Pipeline.Move>, oid: Id)
    requires forall i :: 0 <= i < |moves| ==> Arrives(moves[i])
    requires var s := Pipeline.Run(partitions, moves);
             && Settled(s, oid) && OrderLog(s.write.docs, oid) != []
             && DistinctProducts(Replay(oid, OrderLog(s.write.docs, oid)).items)
    ensures var s := Pipeline.Run(partitions, moves);
            var rebuilt, v := RebuildOrder(EventsOf(s.write.docs, oid)), ViewOf(s.c.tables, oid);
            && rebuilt.Some? && v.items == Collapse(rebuilt.value.items)
            && (forall k :: 0 <= k < |rebuilt.value.items| ==>
                  Lookup(v.items, rebuilt.value.items[k].productId) == Some(RowOf(rebuilt.value.items[k])))
            && (rebuilt.value.items != [] ==> v.row.Some?)
            && (v.row.Some? ==> v.row.value.total == rebuilt.value.total)
  {
    RunIsSound(partitions, moves);
    var s := Pipeline.Run(partitions, moves);
    var log := OrderLog(s.write.docs, oid);
    var attempts := History(partitions, moves);
    VersionsCoincide(s.write.docs, oid, |log|);
    LawfulInOrder(oid, log);
    SettledConverges(s, oid, attempts);
  }

  lemma {:induction false} SettledConverges(s: System, oid: Id, attempts: seq<Attempt>)
    requires Sound(s) && Settled(s, oid) && Recorded(s, attempts)
    requires var log := OrderLog(s.write.docs, oid); InOrder(log) && DistinctProducts(Replay(oid, log).items)
    ensures var v, o := ViewOf(s.c.tables, oid), Replay(oid, OrderLog(s.write.docs, oid));
            && v.items == Collapse(o.items) && (o.items != [] ==> v.row.Some?)
            && (v.row.Some? ==> v.row.value.total == o.total)
            && (forall k :: 0 <= k < |o.items| ==> Lookup(v.items, o.items[k].productId) == Some(RowOf(o.items[k])))
  {
    var log := OrderLog(s.write.docs, oid);
    forall i | 0 <= i < |attempts| && attempts[i].event.orderId == oid && attempts[i].event.payload.ItemAdded?
      ensures attempts[i].event in log
    {
      OrderLogElements(s.write.docs, oid, attempts[i].event);
    }
    forall e | e in log && e.payload.ItemAdded? ensures e.orderId == oid && exists i :: Landed(attempts, i, e) {
      OrderLogElements(s.write.docs, oid, e);
      QuietIsProjected(s, oid, e);
    }
    ItemsConverge(oid, log, attempts);
  }
}
