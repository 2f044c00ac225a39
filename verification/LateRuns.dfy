/** Runs of the retry circuit in which an event is projected a second time after its successors, although every send and
    every re-publication succeeds (consumers/main.py, lambda_handlers/retry_handler.py). */
module LateRuns {
  import opened Aggregate
  import opened Agreement
  import opened Consumer
  import opened CrashSafety
  import opened Events
  import opened LateRedelivery
  import opened ReadModel
  import opened RetryCircuit
  import opened Seqs
  import opened Topics

  // ---------------------------------------------------------------- two iterations of the consumer

  /** An iteration without an error. */
  function Handling(p: nat): seq<Move>
  {
    [Consume(Fetch(p)), Consume(Check), Consume(ProjectStep(Ok)), Consume(Invalidate(Ok)),
     Consume(Mark(Ok)), Consume(Stamp(Ok)), Consume(Commit(Ok))]
  }

  /** An iteration that projects, cannot write the dedup key and uses the queue. */
  function Stumbling(p: nat): seq<Move>
  {
    [Consume(Fetch(p)), Consume(Check), Consume(ProjectStep(Ok)), Consume(Invalidate(Ok)),
     Consume(Mark(Raised)), Consume(SendDlq(Ok)), Consume(Commit(Ok))]
  }

  /** A new message that can be projected is next in partition `p`. */
  ghost predicate Awaits(topic: Topic, c: State, p: nat, m: Message)
  {
    && c.phase.Polling? && p < |topic| && p < |c.committed| && c.committed[p] < |topic[p]|
    && topic[p][c.committed[p]] == m && m.event.eventId !in c.processed && Project(c.tables, m.event).Some?
  }

  /** The consumer once the message is projected and its cache entry deleted. */
  ghost function Midway(c: State, p: nat, m: Message): State
    requires p < |c.committed|
  {
    c.(tables := Projected(c.tables, m.event), projected := c.projected + {m.event},
       cache := c.cache - {m.event.orderId}, phase := Busy(p, c.committed[p], m, AtMark))
  }

  ghost function Handled(c: State, p: nat, m: Message): State
    requires p < |c.committed|
  {
    Midway(c, p, m).(processed := c.processed + {m.event.eventId}, phase := Polling,
                     committed := c.committed[p := c.committed[p] + 1])
  }

  ghost function Stumbled(c: State, p: nat, m: Message): State
    requires p < |c.committed|
  {
    Midway(c, p, m).(dlq := c.dlq[c.sends := m], sends := c.sends + 1, phase := Polling,
                     committed := c.committed[p := c.committed[p] + 1])
  }

  lemma FetchAndCheck(topic: Topic, c: State, p: nat, m: Message)
    requires Awaits(topic, c, p, m)
    ensures Step(topic, Step(topic, c, Fetch(p)), Check) == c.(phase := Busy(p, c.committed[p], m, AtProject))
  {
  }

  lemma ProjectAndDelete(topic: Topic, c: State, p: nat, m: Message)
    requires Awaits(topic, c, p, m)
    ensures var at := c.(phase := Busy(p, c.committed[p], m, AtProject));
            Step(topic, Step(topic, at, ProjectStep(Ok)), Invalidate(Ok)) == Midway(c, p, m)
  {
  }

  lemma Finish(topic: Topic, c: State, p: nat, m: Message)
    requires p < |c.committed|
    ensures Step(topic, Step(topic, Step(topic, Midway(c, p, m), Mark(Ok)), Stamp(Ok)), Commit(Ok)) == Handled(c, p, m)
  {
  }

  lemma Stumble(topic: Topic, c: State, p: nat, m: Message)
    requires p < |c.committed|
    ensures Step(topic, Step(topic, Step(topic, Midway(c, p, m), Mark(Raised)), SendDlq(Ok)), Commit(Ok)) ==
        Stumbled(c, p, m)
  {
  }

  lemma {:induction false} HandlingRun(w: World, p: nat, m: Message)
    requires Awaits(w.topic, w.c, p, m)
    ensures Fold(Next, w, Handling(p)) == w.(c := Handled(w.c, p, m))
  {
    FoldSeven(Next, w, Handling(p));
    FetchAndCheck(w.topic, w.c, p, m);
    ProjectAndDelete(w.topic, w.c, p, m);
    Finish(w.topic, w.c, p, m);
  }

  lemma {:induction false} StumblingRun(w: World, p: nat, m: Message)
    requires Awaits(w.topic, w.c, p, m)
    ensures Fold(Next, w, Stumbling(p)) == w.(c := Stumbled(w.c, p, m))
  {
    FoldSeven(Next, w, Stumbling(p));
    FetchAndCheck(w.topic, w.c, p, m);
    ProjectAndDelete(w.topic, w.c, p, m);
    Stumble(w.topic, w.c, p, m);
  }

  // ---------------------------------------------------------------- a whole history on the topic

  function Messages(es: seq<Event>): seq<Message>
  {
    seq(|es|, i requires 0 <= i < |es| => Message(es[i], 0))
  }

  function Filled(partitions: nat, p: nat, es: seq<Event>): Topic
    requires p < partitions
  {
    EmptyTopic(partitions)[p := Messages(es)]
  }

  function Producing(es: seq<Event>): seq<Move>
  {
    if es == [] then [] else Producing(es[..|es| - 1]) + [Produce(es[|es| - 1])]
  }

  lemma {:induction false} FilledIdsUnique(partitions: nat, p: nat, es: seq<Event>)
    requires p < partitions && DistinctIds(es)
    ensures IdsUnique(Filled(partitions, p, es))
  {
    var topic := Filled(partitions, p, es);
    forall q, i, e, r, j, f | Holds(topic, q, i, e) && Holds(topic, r, j, f) && e.eventId == f.eventId ensures e == f {
      assert q == p && r == p && e == es[i] && f == es[j];
    }
  }

  lemma {:induction false} FilledSnoc(partitions: nat, p: nat, es: seq<Event>, e: Event)
    requires p < partitions
    ensures Put(Filled(partitions, p, es), p, Message(e, 0)) == Filled(partitions, p, es + [e])
  {
    assert Messages(es + [e]) == Messages(es) + [Message(e, 0)];
  }

  lemma {:induction false} ProduceAll(partitions: nat, oid: Id, es: seq<Event>)
    requires partitions > 0 && DistinctIds(es) && forall i :: 0 <= i < |es| ==> es[i].orderId == oid
    ensures Run(partitions, Producing(es)) ==
            World(Filled(partitions, PartitionOf(oid, partitions), es), Start(partitions), {}, {})
  {
    var p := PartitionOf(oid, partitions);
    if es == [] {
      assert Filled(partitions, p, []) == EmptyTopic(partitions);
    } else {
      var init, e := es[..|es| - 1], es[|es| - 1];
      assert init + [e] == es;
      ProduceAll(partitions, oid, init);
      FilledSnoc(partitions, p, init, e);
      FilledIdsUnique(partitions, p, es);
      FoldSnoc(Next, Begin(partitions), Producing(init), Produce(e));
    }
  }

  // ---------------------------------------------------------------- consuming it

  /** A lawful history can be projected event by event, and any of its events again at the end. */
  lemma {:induction false} CanProject(oid: Id, es: seq<Event>, k: nat, e: Event)
    requires Lawful(oid, es) && k <= |es| && e in es && (k < |es| ==> e == es[k])
    ensures Project(ProjectAll(EMPTY, es[..k]), e).Some?
    ensures ViewOf(ProjectAll(EMPTY, es[..k]), oid) == ProjectLog(ABSENT, es[..k])
    ensures e.orderId == oid
  {
    var i :| 0 <= i < |es| && es[i] == e;
    LawfulAt(oid, es, i);
    forall j | 0 <= j < k ensures es[..k][j].orderId == oid {
      LawfulAt(oid, es, j);
    }
    OwnLog(es[..k], oid);
    ProjectAllIsLocal(EMPTY, es[..k], oid);
    assert ViewOf(EMPTY, oid) == ABSENT;
    if e.payload.ItemAdded? {
      HasRow(oid, es, k);
    }
  }

  lemma {:induction false} HasRow(oid: Id, es: seq<Event>, k: nat)
    requires Lawful(oid, es) && k <= |es| && es != [] && (k < |es| ==> es[k].payload.ItemAdded?)
    ensures ProjectLog(ABSENT, es[..k]).row.Some?
  {
    if k < |es| {
      LawfulAt(oid, es, k);
    } else {
      assert es[..k] == es;
    }
    LawfulInOrder(oid, es[..k]);
    FoldsAgree(oid, es[..k]);
  }

  /** The first `k` messages are consumed; `late` is the one that could not be marked. */
  ghost predicate Reached(w: World, partitions: nat, p: nat, es: seq<Event>, late: nat, k: nat)
    requires p < partitions && k <= |es| && late < |es|
  {
    && w.topic == Filled(partitions, p, es) && w.settled == {} && w.dead == {}
    && w.c.phase.Polling? && w.c.committed == Start(partitions).committed[p := k]
    && w.c.tables == ProjectAll(EMPTY, es[..k])
    && (forall id :: id in w.c.processed ==> exists j :: 0 <= j < k && j != late && es[j].eventId == id)
    && (if k <= late then w.c.dlq == map[] && w.c.sends == 0 else w.c.dlq == map[0 := Message(es[late], 0)])
  }

  function Consuming(p: nat, late: nat, k: nat): seq<Move>
  {
    if k == 0 then [] else Consuming(p, late, k - 1) + if k - 1 == late then Stumbling(p) else Handling(p)
  }

  /** The events can be projected one after the other. */
  ghost predicate Projectable(es: seq<Event>)
  {
    forall k: nat :: k < |es| ==> ProjectableAt(es, k)
  }

  ghost predicate ProjectableAt(es: seq<Event>, k: nat)
    requires k < |es|
  {
    Project(ProjectAll(EMPTY, es[..k]), es[k]).Some?
  }

  lemma {:induction false} Unmarked(w: World, partitions: nat, p: nat, es: seq<Event>, late: nat, k: nat)
    requires p < partitions && k < |es| && late < |es| && Projectable(es) && DistinctIds(es)
    requires Reached(w, partitions, p, es, late, k)
    ensures Awaits(w.topic, w.c, p, Message(es[k], 0))
  {
    assert ProjectableAt(es, k);
    assert es[k].eventId !in w.c.processed;
  }

  lemma {:induction false} ProjectedPrefix(es: seq<Event>, k: nat)
    requires k < |es|
    ensures ProjectAll(EMPTY, es[..k + 1]) == Projected(ProjectAll(EMPTY, es[..k]), es[k])
  {
    FoldPrefix(Projected, EMPTY, es, k);
  }

  lemma {:induction false} ConsumedOne(
      w: World, w': World, partitions: nat, p: nat, es: seq<Event>, late: nat, k: nat)
    requires p < partitions && k < |es| && late < |es| && Reached(w, partitions, p, es, late, k)
    requires w' ==
        w.(c := if k == late then Stumbled(w.c, p, Message(es[k], 0)) else Handled(w.c, p, Message(es[k], 0)))
    ensures Reached(w', partitions, p, es, late, k + 1)
  {
    ProjectedPrefix(es, k);
    assert w'.c.committed == Start(partitions).committed[p := k + 1];
    forall id | id in w'.c.processed ensures exists j :: 0 <= j < k + 1 && j != late && es[j].eventId == id {
      if id in w.c.processed {
        var j :| 0 <= j < k && j != late && es[j].eventId == id;
      } else {
        assert es[k].eventId == id;
      }
    }
  }

  lemma {:induction false} ConsumedMany(
      w: World, partitions: nat, p: nat, es: seq<Event>, late: nat, k: nat) returns (w': World)
    requires p < partitions && k <= |es| && late < |es| && Projectable(es) && DistinctIds(es)
    requires Reached(w, partitions, p, es, late, 0)
    ensures w' == Fold(Next, w, Consuming(p, late, k)) && Reached(w', partitions, p, es, late, k)
    decreases k
  {
    if k == 0 {
      w' := w;
    } else {
      var before := ConsumedMany(w, partitions, p, es, late, k - 1);
      w' := OneMore(w, before, partitions, p, es, late, k - 1, k);
    }
  }

  lemma {:induction false} ConsumingFold(
      f: (World, Move) -> World, w: World, p: nat, late: nat, k: nat, before: World)
    requires before == Fold(f, w, Consuming(p, late, k))
    ensures Fold(f, w, Consuming(p, late, k + 1)) == Fold(f, before, if k == late then Stumbling(p) else Handling(p))
  {
    FoldConcat(f, w, Consuming(p, late, k), if k == late then Stumbling(p) else Handling(p));
  }

  lemma {:induction false} OneMore(
      start: World, w: World, partitions: nat, p: nat, es: seq<Event>, late: nat, k: nat, next: nat)
      returns (w': World)
    requires p < partitions && k < |es| && late < |es| && Projectable(es) && DistinctIds(es) && next == k + 1
    requires w == Fold(Next, start, Consuming(p, late, k)) && Reached(w, partitions, p, es, late, k)
    ensures w' == Fold(Next, start, Consuming(p, late, next)) && Reached(w', partitions, p, es, late, next)
  {
    Unmarked(w, partitions, p, es, late, k);
    w' := RoundRun(w, p, es, late, k);
    ConsumingFold(Next, start, p, late, k, w);
    ConsumedOne(w, w', partitions, p, es, late, k);
  }

  lemma {:induction false} RoundRun(w: World, p: nat, es: seq<Event>, late: nat, k: nat) returns (w': World)
    requires k < |es| && Awaits(w.topic, w.c, p, Message(es[k], 0))
    ensures w' == Fold(Next, w, if k == late then Stumbling(p) else Handling(p))
    ensures w' ==
            w.(c := if k == late then Stumbled(w.c, p, Message(es[k], 0)) else Handled(w.c, p, Message(es[k], 0)))
  {
    var m := Message(es[k], 0);
    if k == late {
      StumblingRun(w, p, m);
      w' := w.(c := Stumbled(w.c, p, m));
    } else {
      HandlingRun(w, p, m);
      w' := w.(c := Handled(w.c, p, m));
    }
  }

  // ---------------------------------------------------------------- the late copy

  /** The message is re-published, consumed again and deleted. */
  function Returning(p: nat): seq<Move>
  {
    [Republish(0, p, Ok)] + Handling(p) + [Delete(0, Ok)]
  }

  lemma {:induction false} ReturnedRun(w: World, partitions: nat, p: nat, oid: Id, es: seq<Event>, late: nat)
    requires p < partitions && late < |es| && Lawful(oid, es) && DistinctIds(es)
    requires Reached(w, partitions, p, es, late, |es|)
    ensures var w' := Fold(Next, w, Returning(p));
            && w'.topic == Put(w.topic, p, Message(es[late], 1)) && w'.dead == {} && w'.c.dlq == map[]
            && w'.c.committed == Start(partitions).committed[p := |es| + 1]
            && w'.c.tables == Projected(ProjectAll(EMPTY, es), es[late])
  {
    var m := Message(es[late], 1);
    var w1 := World(Put(w.topic, p, m), w.c, {0}, {});
    var w2 := w1.(c := Handled(w1.c, p, m));
    ReturningFold(Next, w, p);
    Republished(w, p, es[late]);
    CopyAwaits(w, partitions, p, oid, es, late);
    HandlingRun(w1, p, m);
    Deleted(w2, Message(es[late], 0));
    CopyHandled(w.c, partitions, p, es, m);
  }

  lemma Republished(w: World, p: nat, e: Event)
    requires p < |w.topic| && w.c.dlq == map[0 := Message(e, 0)] && w.settled == {} && w.dead == {}
    ensures Next(w, Republish(0, p, Ok)) == World(Put(w.topic, p, Message(e, 1)), w.c, {0}, {})
  {
  }

  /** The copy is next, and no key stands for it. */
  lemma {:induction false} CopyAwaits(w: World, partitions: nat, p: nat, oid: Id, es: seq<Event>, late: nat)
    requires p < partitions && late < |es| && Lawful(oid, es) && DistinctIds(es)
    requires Reached(w, partitions, p, es, late, |es|)
    ensures Awaits(Put(w.topic, p, Message(es[late], 1)), w.c, p, Message(es[late], 1))
  {
    assert es[..|es|] == es;
    CanProject(oid, es, |es|, es[late]);
    assert es[late].eventId !in w.c.processed;
  }

  lemma {:induction false} CopyHandled(c: State, partitions: nat, p: nat, es: seq<Event>, m: Message)
    requires p < partitions && c.committed == Start(partitions).committed[p := |es|]
    requires c.tables == ProjectAll(EMPTY, es[..|es|])
    ensures Handled(c, p, m).committed == Start(partitions).committed[p := |es| + 1]
    ensures Handled(c, p, m).tables == Projected(ProjectAll(EMPTY, es), m.event)
  {
    assert es[..|es|] == es;
  }

  lemma Deleted(w: World, m: Message)
    requires w.settled == {0} && w.c.dlq == map[0 := m]
    ensures Next(w, Delete(0, Ok)) == w.(c := w.c.(dlq := map[]))
  {
    assert w.c.dlq - {0} == map[];
  }

  lemma {:induction false} ReturningFold(f: (World, Move) -> World, w: World, p: nat)
    ensures Fold(f, w, Returning(p)) == f(Fold(f, f(w, Republish(0, p, Ok)), Handling(p)), Delete(0, Ok))
  {
    FoldSnoc(f, w, [], Republish(0, p, Ok));
    assert [] + [Republish(0, p, Ok)] == [Republish(0, p, Ok)];
    FoldConcat(f, w, [Republish(0, p, Ok)], Handling(p));
    FoldSnoc(f, w, [Republish(0, p, Ok)] + Handling(p), Delete(0, Ok));
  }

  function LateCopy(p: nat, es: seq<Event>, late: nat): seq<Move>
  {
    Producing(es) + Consuming(p, late, |es|) + Returning(p)
  }

  ghost predicate AllArrive(moves: seq<Move>)
  {
    forall m :: m in moves ==> SendsArrive(m)
  }

  lemma {:induction false} NoSendFails(p: nat, es: seq<Event>, late: nat)
    ensures AllArrive(LateCopy(p, es, late))
  {
    ProducingArrives(es);
    ConsumingArrives(p, late, |es|);
  }

  lemma {:induction false} ProducingArrives(es: seq<Event>)
    ensures AllArrive(Producing(es))
  {
    if es != [] {
      ProducingArrives(es[..|es| - 1]);
    }
  }

  lemma {:induction false} ConsumingArrives(p: nat, late: nat, k: nat)
    ensures AllArrive(Consuming(p, late, k))
  {
    if k > 0 {
      ConsumingArrives(p, late, k - 1);
    }
  }

  /** For every history and every event of it there is a run in which every send arrives, everything is consumed and the
      queue ends empty, and the event's late copy was projected last. The row is then right if and only if the event is
      the first or the last of the history; otherwise its version has gone back. */
  lemma {:induction false} LateCopyIsReached(partitions: nat, oid: Id, es: seq<Event>, late: nat)
    requires partitions > 0 && Lawful(oid, es) && DistinctIds(es) && late < |es|
    ensures var p := PartitionOf(oid, partitions);
            var w := Run(partitions, LateCopy(p, es, late));
            && AllArrive(LateCopy(p, es, late)) && w.c.dlq == map[] && w.dead == {}
            && |w.c.committed| == |w.topic| && (forall q :: 0 <= q < |w.topic| ==> w.c.committed[q] == |w.topic[q]|)
            && (ViewOf(w.c.tables, oid) == ProjectLog(ABSENT, es) <==> late == 0 || late == |es| - 1)
            && ViewOf(w.c.tables, oid).row.Some?
            && (late != 0 ==> ViewOf(w.c.tables, oid).row.value.version == late + 1)
  {
    var p := PartitionOf(oid, partitions);
    var w0 := World(Filled(partitions, p, es), Start(partitions), {}, {});
    forall i | 0 <= i < |es| ensures es[i].orderId == oid {
      LawfulAt(oid, es, i);
    }
    ProduceAll(partitions, oid, es);
    FoldConcat(Next, Begin(partitions), Producing(es), Consuming(p, late, |es|));
    FoldConcat(Next, Begin(partitions), Producing(es) + Consuming(p, late, |es|), Returning(p));
    NothingConsumed(partitions, p, es, late);
    forall k: nat | k < |es| ensures ProjectableAt(es, k) {
      CanProject(oid, es, k, es[k]);
    }
    var w1 := ConsumedMany(w0, partitions, p, es, late, |es|);
    ReturnedRun(w1, partitions, p, oid, es, late);
    NoSendFails(p, es, late);
    LateView(oid, es, late);
    Drained(w1, Fold(Next, w1, Returning(p)), partitions, p, es, late);
  }

  lemma {:induction false} NothingConsumed(partitions: nat, p: nat, es: seq<Event>, late: nat)
    requires p < partitions && late < |es|
    ensures Reached(World(Filled(partitions, p, es), Start(partitions), {}, {}), partitions, p, es, late, 0)
  {
    assert es[..0] == [] && Start(partitions).committed[p := 0] == Start(partitions).committed;
  }

  lemma {:induction false} Drained(w: World, w': World, partitions: nat, p: nat, es: seq<Event>, late: nat)
    requires p < partitions && late < |es| && w.topic == Filled(partitions, p, es)
    requires w'.topic == Put(w.topic, p, Message(es[late], 1))
    requires w'.c.committed == Start(partitions).committed[p := |es| + 1]
    ensures |w'.c.committed| == |w'.topic| && forall q :: 0 <= q < |w'.topic| ==> w'.c.committed[q] == |w'.topic[q]|
  {
  }

  lemma {:induction false} LateView(oid: Id, es: seq<Event>, late: nat)
    requires Lawful(oid, es) && late < |es|
    ensures var v := ViewOf(Projected(ProjectAll(EMPTY, es), es[late]), oid);
            && (v == ProjectLog(ABSENT, es) <==> late == 0 || late == |es| - 1)
            && v.row.Some? && (late != 0 ==> v.row.value.version == late + 1)
  {
    assert es[..|es|] == es;
    CanProject(oid, es, |es|, es[late]);
    ProjectIsLocal(ProjectAll(EMPTY, es), es[late], oid);
    LateRedeliveryExact(oid, es, late);
  }
}
