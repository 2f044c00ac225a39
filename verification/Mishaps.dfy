/** What crashes and expiring keys do, step by step: the behaviour the whole-run results have to cope with
    (consumers/main.py, consumers/archiver.py, api/services/publisher.py, api/routers/query_router.py). */
module Mishaps {
  import opened Events
  import opened Topics
  import Archiver
  import Cache
  import Consumer
  import CrashSafety
  import Pipeline
  import ReadModel
  import RetryCircuit
  import WriteSide

  /** A consumer that dies before its commit meets the same message again, with all it had written still there. */
  lemma CrashRedelivers(topic: Topic, c: Consumer.State)
    requires CrashSafety.HasCommitted(topic, c) && RetryCircuit.AtHand(topic, c) && c.phase.Busy?
    requires c.committed[c.phase.p] == c.phase.off
    ensures var again := Consumer.Step(topic, Consumer.Step(topic, c, Consumer.Crash), Consumer.Fetch(c.phase.p));
            again == c.(phase := c.phase.(at := Consumer.AtCheck))
  {
  }

  /** Without its key a message that was processed is projected once more. */
  lemma ExpiredKeyProjectsAgain(topic: Topic, c: Consumer.State)
    requires Consumer.IsAt(c, Consumer.AtCheck)
    ensures var id := c.phase.m.event.eventId;
            var late := Consumer.Step(topic, Consumer.Step(topic, c, Consumer.ExpireKey(id)), Consumer.Check);
            Consumer.IsAt(late, Consumer.AtProject) && late.processed == c.processed - {id} && late.tables == c.tables
  {
  }

  /** A handler that dies after its insert leaves an event that is stored and not published, and nothing it might still
      have done is done. */
  lemma {:induction false} KilledHandlerPublishesNothing(s: WriteSide.State, h: nat, e: Event, send: Outcome,
      mark: Outcome)
    requires h in s.handlers && s.handlers[h] == WriteSide.Publishing(e, 0, false)
    ensures var dead := WriteSide.Step(s, WriteSide.Kill(h));
            && dead == s.(handlers := s.handlers[h := WriteSide.Failed])
            && WriteSide.Step(dead, WriteSide.Send(h, send)) == dead
            && WriteSide.Step(dead, WriteSide.SetKey(h, mark)) == dead
  {
  }

  /** Once its key is forgotten a published event is sent again by a retried publish. */
  lemma {:induction false} ForgottenKeySendsAgain(s: WriteSide.State, h: nat, e: Event, n: nat)
    requires h in s.handlers && s.handlers[h] == WriteSide.Publishing(e, n, false) && s.topic != []
    ensures WriteSide.Step(WriteSide.Step(s, WriteSide.ForgetKey(e.eventId)), WriteSide.Send(h, Ok)).topic ==
            Put(s.topic, PartitionOf(e.orderId, |s.topic|), Message(e, 0))
    ensures e.eventId in s.publishedKeys ==> WriteSide.Step(s, WriteSide.Send(h, Ok)).topic == s.topic
  {
  }

  /** An archiver that dies forgets its batch and consumes again from the committed offsets. */
  lemma CrashForgetsBatch(size: nat, s: Archiver.State)
    ensures Archiver.Step(size, s, Archiver.Crash) ==
            Archiver.State(s.lengths, s.committed, s.committed, [], 0, Archiver.Idle, s.objects)
  {
  }

  /** An evicted entry is read from the tables again. */
  lemma {:induction false} EvictedIsReadAgain(s: Cache.Site, r: nat, oid: Id)
    requires r in s.readers && s.readers[r] == Cache.Asked(oid) && oid in s.c.tables.orders
    ensures var missed := Cache.Next(Cache.Next(s, Cache.Evict(oid)), Cache.LookUp(r));
            var held := Cache.Next(missed, Cache.Query(r));
            && missed.c.cache == s.c.cache - {oid}
            && r in held.readers && held.readers[r] == Cache.Holding(oid, ReadModel.ViewOf(s.c.tables, oid), false)
  {
  }

  /** To the retry circuit the whole system is one more run: the consumer's and the handler's steps are the circuit's,
      and a command is a producer or nothing. */
  lemma {:induction false} SystemIsCircuit(s: Pipeline.System, move: Pipeline.Move)
    ensures var w, w' := Pipeline.Circuit(s), Pipeline.Circuit(Pipeline.Next(s, move));
            match move
            case Consume(a) => w' == RetryCircuit.Next(w, RetryCircuit.Consume(a))
            case Retry(step) => Pipeline.IsHandlerStep(step) ==> w' == RetryCircuit.Next(w, step)
            case Command(a) => w' == w.(topic := WriteSide.Step(s.write, a).topic)
  {
  }
}
