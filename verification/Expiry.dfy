/** When stored events get an expiry date (consumers/main.py, api/services/event_store.py). */
module Expiry {
  import opened Aggregate
  import opened Events
  import opened EventStore
  import opened LateRuns
  import opened Pipeline
  import opened Seqs
  import opened Topics
  import Consumer
  import WriteSide

  // ---------------------------------------------------------------- exactly which events expire

  /** The move is the stamp of a cancellation or delivery of the event's order, and the event is stored. */
  predicate StampsNow(s: System, move: Pipeline.Move, e: Event)
  {
    && move.Consume? && move.action.Stamp? && move.action.outcome != Raised
    && s.c.phase.Busy? && s.c.phase.at == Consumer.AtStamp && s.c.phase.m.event.orderId == e.orderId
    && (s.c.phase.m.event.payload.OrderCancelled? || s.c.phase.m.event.payload.OrderDelivered?)
    && e in s.write.docs
  }

  ghost predicate StampedAt(partitions: nat, moves: seq<Pipeline.Move>, n: nat, e: Event)
  {
    n < |moves| && StampsNow(Pipeline.Run(partitions, moves[..n]), moves[n], e)
  }

  lemma {:induction false} ExpiringStep(s: System, move: Pipeline.Move, e: Event)
    requires ExpiryInv(s) && DistinctIds(Pipeline.Next(s, move).write.docs) && e in Pipeline.Next(s, move).write.docs
    ensures e.eventId in Pipeline.Next(s, move).expiring <==>
            (e in s.write.docs && e.eventId in s.expiring) || StampsNow(s, move, e)
  {
    var docs := Pipeline.Next(s, move).write.docs;
    var k :| 0 <= k < |docs| && docs[k] == e;
    if e !in s.write.docs {
      NewIsUnstamped(s, move, e);
    } else if move.Consume? && Stamps(s, move.action) {
      StampsItsOrder(s.write.docs, e, s.c.phase.m.event.orderId);
    }
  }

  lemma {:induction false} StampsItsOrder(docs: seq<Event>, e: Event, oid: Id)
    requires DistinctIds(docs) && e in docs
    ensures e.eventId in IdsOf(docs, oid) <==> e.orderId == oid
  {
    var k :| 0 <= k < |docs| && docs[k] == e;
    if e.eventId in IdsOf(docs, oid) {
      var j :| 0 <= j < |docs| && docs[j].orderId == oid && docs[j].eventId == e.eventId;
      assert j == k;
    }
  }

  lemma {:induction false} NewIsUnstamped(s: System, move: Pipeline.Move, e: Event)
    requires ExpiryInv(s) && DistinctIds(Pipeline.Next(s, move).write.docs)
    requires e in Pipeline.Next(s, move).write.docs && e !in s.write.docs
    ensures e.eventId !in Pipeline.Next(s, move).expiring
  {
    var docs, docs' := s.write.docs, Pipeline.Next(s, move).write.docs;
    assert move.Command? && docs' == docs + [e];
    forall i | 0 <= i < |docs| ensures docs[i].eventId != e.eventId {
      assert docs'[i] == docs[i] && docs'[|docs|] == e;
    }
  }

  lemma {:induction false} StoredBefore(partitions: nat, moves: seq<Pipeline.Move>, n: nat, e: Event)
    requires n <= |moves| && e in Pipeline.Run(partitions, moves[..n]).write.docs
    ensures e in Pipeline.Run(partitions, moves).write.docs
  {
    if n < |moves| {
      var init := moves[..|moves| - 1];
      assert init[..n] == moves[..n];
      StoredBefore(partitions, init, n, e);
      StaysStored(Pipeline.Run(partitions, init), moves[|moves| - 1], e);
    } else {
      assert moves[..n] == moves;
    }
  }

  lemma StaysStored(s: System, move: Pipeline.Move, e: Event)
    requires e in s.write.docs
    ensures e in Pipeline.Next(s, move).write.docs
  {
  }

  /** In every run a stored event has an expiry date if and only if a cancellation or delivery of its order was stamped
      after the event was stored. */
  lemma {:induction false} ExpiringIff(partitions: nat, moves: seq<Pipeline.Move>, e: Event)
    requires e in Pipeline.Run(partitions, moves).write.docs
    ensures e.eventId in Pipeline.Run(partitions, moves).expiring <==>
            exists n :: StampedAt(partitions, moves, n, e)
  {
    if moves != [] {
      var init, move := moves[..|moves| - 1], moves[|moves| - 1];
      var s := Pipeline.Run(partitions, init);
      RunKeepsExpiry(partitions, init);
      RunKeepsExpiry(partitions, moves);
      ExpiringStep(s, move, e);
      if e in s.write.docs {
        ExpiringIff(partitions, init, e);
      }
      StampedSnoc(partitions, moves, e);
    }
  }

  lemma {:induction false} StampedSnoc(partitions: nat, moves: seq<Pipeline.Move>, e: Event)
    requires moves != []
    ensures var init := moves[..|moves| - 1];
            (exists n :: StampedAt(partitions, moves, n, e)) <==>
            (e in Pipeline.Run(partitions, init).write.docs && exists n :: StampedAt(partitions, init, n, e)) ||
            StampsNow(Pipeline.Run(partitions, init), moves[|moves| - 1], e)
  {
    var last := |moves| - 1;
    var init := moves[..last];
    forall n: nat | n < last ensures StampedAt(partitions, moves, n, e) <==> StampedAt(partitions, init, n, e) {
      assert init[..n] == moves[..n];
    }
    assert StampedAt(partitions, moves, last, e) <==> StampsNow(Pipeline.Run(partitions, init), moves[last], e);
    if n: nat :| StampedAt(partitions, init, n, e) {
      StoredBefore(partitions, init, n, e);
      assert StampedAt(partitions, moves, n, e);
    }
    if n: nat :| StampedAt(partitions, moves, n, e) && n < last {
      assert StampedAt(partitions, init, n, e);
    }
  }

  // ---------------------------------------------------------------- a cancelled order expires

  /** A command that is published at the first attempt. */
  function Publishing(h: nat, oid: Id, eid: Id, c: Command, charged: bool): seq<WriteSide.Action>
  {
    [WriteSide.Begin(h, oid, eid, c, charged), WriteSide.Append(h, Ok), WriteSide.Send(h, Ok), WriteSide.SetKey(h, Ok)]
  }

  lemma {:induction false} PublishingRun(
      w: WriteSide.State, h: nat, oid: Id, eid: Id, c: Command, charged: bool, e: Event)
    requires h !in w.handlers && ValidRequest(c) && WriteSide.Loaded(w.docs, oid, eid, c, charged) == WriteSide.Ready(e)
    requires !Conflict(w.docs, e) && e.eventId !in w.publishedKeys && w.topic != []
    ensures Fold(WriteSide.Step, w, Publishing(h, oid, eid, c, charged)) ==
            WriteSide.State(w.docs + [e], w.handlers[h := WriteSide.Responded(e)],
                            Put(w.topic, PartitionOf(e.orderId, |w.topic|), Message(e, 0)),
                            w.publishedKeys + {e.eventId})
  {
    FoldFour(WriteSide.Step, w, Publishing(h, oid, eid, c, charged));
    BeginAndAppend(w, h, oid, eid, c, charged, e);
    var w2 := WriteSide.WithHandler(w, h, WriteSide.Publishing(e, 0, false)).(docs := w.docs + [e]);
    SendAndMark(w2, h, e);
    assert w2.handlers[h := WriteSide.Responded(e)] == w.handlers[h := WriteSide.Responded(e)];
  }

  lemma {:induction false} BeginAndAppend(
      w: WriteSide.State, h: nat, oid: Id, eid: Id, c: Command, charged: bool, e: Event)
    requires h !in w.handlers && ValidRequest(c) && WriteSide.Loaded(w.docs, oid, eid, c, charged) == WriteSide.Ready(e)
    requires !Conflict(w.docs, e)
    ensures WriteSide.Step(WriteSide.Step(w, WriteSide.Begin(h, oid, eid, c, charged)), WriteSide.Append(h, Ok)) ==
            WriteSide.WithHandler(w, h, WriteSide.Publishing(e, 0, false)).(docs := w.docs + [e])
  {
    var w1 := WriteSide.WithHandler(w, h, WriteSide.Ready(e));
    assert WriteSide.Step(w, WriteSide.Begin(h, oid, eid, c, charged)) == w1;
    WriteSide.AppendStores(w1, h, e);
    assert w1.handlers[h := WriteSide.Publishing(e, 0, false)] == w.handlers[h := WriteSide.Publishing(e, 0, false)];
  }

  lemma {:induction false} SendAndMark(w: WriteSide.State, h: nat, e: Event)
    requires h in w.handlers && w.handlers[h] == WriteSide.Publishing(e, 0, false)
    requires e.eventId !in w.publishedKeys && w.topic != []
    ensures WriteSide.Step(WriteSide.Step(w, WriteSide.Send(h, Ok)), WriteSide.SetKey(h, Ok)) ==
            WriteSide.State(w.docs, w.handlers[h := WriteSide.Responded(e)],
                            Put(w.topic, PartitionOf(e.orderId, |w.topic|), Message(e, 0)),
                            w.publishedKeys + {e.eventId})
  {
    var w1 := WriteSide.Step(w, WriteSide.Send(h, Ok));
    assert w1.handlers == w.handlers[h := WriteSide.Publishing(e, 0, true)];
    assert w1.handlers[h := WriteSide.Responded(e)] == w.handlers[h := WriteSide.Responded(e)];
  }

  function Commands(actions: seq<WriteSide.Action>): seq<Pipeline.Move>
  {
    seq(|actions|, i requires 0 <= i < |actions| => Command(actions[i]))
  }

  lemma {:induction false} CommandsRun(s: System, actions: seq<WriteSide.Action>)
    ensures Fold(Pipeline.Next, s, Commands(actions)) == s.(write := Fold(WriteSide.Step, s.write, actions))
    decreases |actions|
  {
    if actions != [] {
      var init, a := actions[..|actions| - 1], actions[|actions| - 1];
      CommandsRun(s, init);
      FoldSnoc(Pipeline.Next, s, Commands(init), Command(a));
      assert Commands(actions) == Commands(init) + [Command(a)];
    }
  }

  /** An iteration of the consumer without an error. */
  function Consuming(p: nat): seq<Pipeline.Move>
  {
    [Consume(Consumer.Fetch(p)), Consume(Consumer.Check), Consume(Consumer.ProjectStep(Ok)),
     Consume(Consumer.Invalidate(Ok)), Consume(Consumer.Mark(Ok)), Consume(Consumer.Stamp(Ok)),
     Consume(Consumer.Commit(Ok))]
  }

  /** Such an iteration stamps the order exactly when the message ends it. */
  lemma {:induction false} ConsumingRun(s: System, p: nat, m: Message)
    requires Awaits(s.write.topic, s.c, p, m)
    ensures Fold(Pipeline.Next, s, Consuming(p)) ==
            s.(c := Handled(s.c, p, m),
               expiring := if m.event.payload.OrderCancelled? || m.event.payload.OrderDelivered?
                           then s.expiring + IdsOf(s.write.docs, m.event.orderId) else s.expiring)
  {
    FoldSeven(Pipeline.Next, s, Consuming(p));
    var topic := s.write.topic;
    FetchAndCheck(topic, s.c, p, m);
    ProjectAndDelete(topic, s.c, p, m);
    var s4 := s.(c := Midway(s.c, p, m));
    BeforeMark(s, p, m);
    AfterMark(s4, s.c, p, m);
  }

  lemma {:induction false} BeforeMark(s: System, p: nat, m: Message)
    requires Awaits(s.write.topic, s.c, p, m)
    ensures var s2 := Pipeline.Next(Pipeline.Next(s, Consume(Consumer.Fetch(p))), Consume(Consumer.Check));
            Pipeline.Next(Pipeline.Next(s2, Consume(Consumer.ProjectStep(Ok))), Consume(Consumer.Invalidate(Ok))) ==
            s.(c := Midway(s.c, p, m))
  {
    FetchAndCheck(s.write.topic, s.c, p, m);
    ProjectAndDelete(s.write.topic, s.c, p, m);
  }

  lemma {:induction false} AfterMark(s: System, c: Consumer.State, p: nat, m: Message)
    requires p < |c.committed| && s.c == Midway(c, p, m)
    ensures var s5 := Pipeline.Next(s, Consume(Consumer.Mark(Ok)));
            Pipeline.Next(Pipeline.Next(s5, Consume(Consumer.Stamp(Ok))), Consume(Consumer.Commit(Ok))) ==
            s.(c := Handled(c, p, m),
               expiring := if m.event.payload.OrderCancelled? || m.event.payload.OrderDelivered?
                           then s.expiring + IdsOf(s.write.docs, m.event.orderId) else s.expiring)
  {
    Finish(s.write.topic, c, p, m);
  }

  /** A customer creates an order and cancels it; the consumer takes both events. */
  function CreateAndCancel(oid: Id, first: Id, second: Id, customer: Id, email: string, reason: string, p: nat):
    seq<Pipeline.Move>
  {
    Commands(Publishing(0, oid, first, CreateOrder(customer, email), true)) +
    Commands(Publishing(1, oid, second, CancelOrder(reason), true)) + Consuming(p) + Consuming(p)
  }

  lemma {:induction false} Written(
      partitions: nat, oid: Id, first: Id, second: Id, customer: Id, email: string, reason: string)
      returns (w: WriteSide.State)
    requires partitions > 0 && first != second
    ensures var e, f := Event(first, oid, 1, OrderCreated(customer, email)),
        Event(second, oid, 2, OrderCancelled(reason));
            var p := PartitionOf(oid, partitions);
            var create := Publishing(0, oid, first, CreateOrder(customer, email), true);
            && w == Fold(WriteSide.Step, Fold(WriteSide.Step, WriteSide.Start(partitions), create),
                         Publishing(1, oid, second, CancelOrder(reason), true))
            && w.docs == [e, f] && w.topic == Put(Put(EmptyTopic(partitions), p, Message(e, 0)), p, Message(f, 0))
  {
    var e, f := Event(first, oid, 1, OrderCreated(customer, email)), Event(second, oid, 2, OrderCancelled(reason));
    var w1 := WrittenFirst(partitions, e);
    CancelLoads(e, f, reason);
    PublishingRun(w1, 1, oid, second, CancelOrder(reason), true, f);
    w := Fold(WriteSide.Step, w1, Publishing(1, oid, second, CancelOrder(reason), true));
    assert [e] + [f] == [e, f];
  }

  lemma {:induction false} WrittenFirst(partitions: nat, e: Event) returns (w: WriteSide.State)
    requires partitions > 0 && e.payload.OrderCreated? && e.version == 1
    ensures var c := CreateOrder(e.payload.customerId, e.payload.customerEmail);
            w == Fold(WriteSide.Step, WriteSide.Start(partitions), Publishing(0, e.orderId, e.eventId, c, true))
    ensures w.docs == [e] && 1 !in w.handlers && w.publishedKeys == {e.eventId}
    ensures w.topic == Put(EmptyTopic(partitions), PartitionOf(e.orderId, partitions), Message(e, 0))
  {
    var c := CreateOrder(e.payload.customerId, e.payload.customerEmail);
    PublishingRun(WriteSide.Start(partitions), 0, e.orderId, e.eventId, c, true, e);
    w := Fold(WriteSide.Step, WriteSide.Start(partitions), Publishing(0, e.orderId, e.eventId, c, true));
    assert [] + [e] == [e];
  }

  lemma {:induction false} CancelLoads(e: Event, f: Event, reason: string)
    requires e.payload.OrderCreated? && e.version == 1 && f.version == 2 && f.payload == OrderCancelled(reason)
    requires e.orderId == f.orderId && e.eventId != f.eventId
    ensures WriteSide.Loaded([e], f.orderId, f.eventId, CancelOrder(reason), true) == WriteSide.Ready(f)
    ensures !Conflict([e], f)
  {
    var oid := e.orderId;
    CreatedIsLawful(oid, e);
    CancelFollows([e], f, reason);
  }

  lemma {:induction false} CancelFollows(docs: seq<Event>, f: Event, reason: string)
    requires Lawful(f.orderId, docs) && |docs| == 1 && DistinctIds(docs) && DistinctIds(docs + [f])
    requires Replay(f.orderId, docs).status == Pending && f.version == 2 && f.payload == OrderCancelled(reason)
    ensures WriteSide.Loaded(docs, f.orderId, f.eventId, CancelOrder(reason), true) == WriteSide.Ready(f)
    ensures !Conflict(docs, f)
  {
    WriteSide.OneOrderStore(f.orderId, docs);
    assert PayloadOf(CancelOrder(reason)) == f.payload && Issuable(f.payload);
    WriteSide.ScriptLoads(docs, f, CancelOrder(reason));
    WriteSide.ScriptAppends(docs, f);
  }

  lemma {:induction false} CreatedIsLawful(oid: Id, e: Event)
    requires e.payload.OrderCreated? && e.version == 1 && e.orderId == oid
    ensures Lawful(oid, [e]) && Replay(oid, [e]).status == Pending
  {
    assert PayloadOf(CreateOrder(e.payload.customerId, e.payload.customerEmail)) == e.payload && Issuable(e.payload);
    assert [] + [e] == [e];
    LawfulSnoc(oid, [], e);
    ReplaySnoc(oid, [], e);
  }

  /** After such a run all stored events of the order carry an expiry date. */
  lemma {:induction false} CancelledOrderExpires(
      partitions: nat, oid: Id, first: Id, second: Id, customer: Id, email: string, reason: string)
    requires partitions > 0 && first != second
    ensures var p := PartitionOf(oid, partitions);
            var s := Pipeline.Run(partitions, CreateAndCancel(oid, first, second, customer, email, reason, p));
            && |s.write.docs| == 2 && s.write.docs[0].eventId == first && s.write.docs[1].eventId == second
            && (forall i :: 0 <= i < 2 ==> s.write.docs[i].orderId == oid && s.write.docs[i].eventId in s.expiring)
  {
    var p := PartitionOf(oid, partitions);
    var e, f := Event(first, oid, 1, OrderCreated(customer, email)), Event(second, oid, 2, OrderCancelled(reason));
    var create := Publishing(0, oid, first, CreateOrder(customer, email), true);
    var cancel := Publishing(1, oid, second, CancelOrder(reason), true);
    var s0 := Pipeline.Start(partitions);
    var w := Written(partitions, oid, first, second, customer, email, reason);
    CommandsRun(s0, create);
    FoldConcat(Pipeline.Next, s0, Commands(create), Commands(cancel));
    CommandsRun(s0.(write := Fold(WriteSide.Step, s0.write, create)), cancel);
    FoldConcat(Pipeline.Next, s0, Commands(create) + Commands(cancel), Consuming(p));
    FoldConcat(Pipeline.Next, s0, Commands(create) + Commands(cancel) + Consuming(p), Consuming(p));
    var s2 := s0.(write := w);
    BothConsumed(s2, partitions, p, e, f);
  }

  lemma {:induction false} BothConsumed(s: System, partitions: nat, p: nat, e: Event, f: Event)
    requires p < partitions && s.c == Consumer.Start(partitions) && s.write.docs == [e, f]
    requires s.write.topic == Put(Put(EmptyTopic(partitions), p, Message(e, 0)), p, Message(f, 0))
    requires e.payload.OrderCreated? && f.payload.OrderCancelled? && e.orderId == f.orderId && e.eventId != f.eventId
    ensures var t := Fold(Pipeline.Next, Fold(Pipeline.Next, s, Consuming(p)), Consuming(p));
            t.write == s.write && e.eventId in t.expiring && f.eventId in t.expiring
  {
    ConsumingRun(s, p, Message(e, 0));
    var s1 := Fold(Pipeline.Next, s, Consuming(p));
    assert s1.write.topic[p][1] == Message(f, 0);
    ConsumingRun(s1, p, Message(f, 0));
    assert s.write.docs[0] == e && s.write.docs[1] == f;
    assert e.eventId in IdsOf(s.write.docs, f.orderId) && f.eventId in IdsOf(s.write.docs, f.orderId);
  }
}
