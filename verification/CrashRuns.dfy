/** Whole runs of producers and a crashing consumer (`consume` in consumers/main.py). */
module CrashRuns {
  import opened Consumer
  import opened CrashSafety
  import opened Events
  import opened ReadModel
  import opened RetryCircuit
  import opened Topics

  /** No exception path and no expired key in any consumer step. */
  ghost predicate QuietRun(partitions: nat, moves: seq<Move>)
  {
    forall i :: 0 <= i < |moves| && moves[i].Consume? ==>
      Undisturbed(RetryCircuit.Run(partitions, moves[..i]).c, moves[i].action)
  }

  ghost predicate QuietInv(w: World)
  {
    GoodTopic(w.topic) && CrashInv(w.topic, w.c) && w.c.dlq == map[]
  }

  lemma {:induction false} RoutedPut(topic: Topic, e: Event)
    requires Routed(topic)
    ensures Routed(Put(topic, PartitionOf(e.orderId, |topic|), Message(e, 0)))
  {
    var p := PartitionOf(e.orderId, |topic|);
    var topic' := Put(topic, p, Message(e, 0));
    forall q, i, f | Holds(topic', q, i, f) ensures q == PartitionOf(f.orderId, |topic'|) {
      assert Holds(topic, q, i, f) || (q == p && f == e);
    }
  }

  lemma {:induction false} QuietMove(w: World, move: Move)
    requires QuietInv(w) && (move.Consume? ==> Undisturbed(w.c, move.action))
    ensures QuietInv(Next(w, move))
  {
    match move {
      case Produce(e) =>
        if CanProduce(w.topic, e) {
          RoutedPut(w.topic, e);
          TopicGrowthKeepsInv(w.topic, w.c, PartitionOf(e.orderId, |w.topic|), Message(e, 0));
        }
      case Consume(a) =>
        StepKeepsInv(w.topic, w.c, a);
        assert !IsAt(w.c, AtDlq);
      case Republish(_, _, _) =>
      case DeadLetter(_, _) =>
      case Delete(id, _) => QuietDelete(w, id);
    }
  }

  lemma {:induction false} QuietDelete(w: World, id: nat)
    requires QuietInv(w)
    ensures w.c.(dlq := w.c.dlq - {id}) == w.c
  {
    assert w.c.dlq - {id} == map[];
  }

  lemma {:induction false} EmptyTopicIsGood(partitions: nat)
    requires partitions > 0
    ensures GoodTopic(EmptyTopic(partitions)) && CrashInv(EmptyTopic(partitions), Start(partitions))
  {
    var topic, c := EmptyTopic(partitions), Start(partitions);
    assert forall p, i, e :: !Holds(topic, p, i, e);
    forall p | 0 <= p < partitions ensures PartitionInv(topic, c, p) {
      forall oid ensures ViewOf(EMPTY, oid) == Image(topic[p], 0, oid) {
        assert EventsIn(topic[p][..0]) == [];
        assert ViewOf(EMPTY, oid) == ABSENT;
      }
    }
  }

  lemma {:induction false} QuietInit(partitions: nat, moves: seq<Move>)
    requires moves != [] && QuietRun(partitions, moves)
    ensures QuietRun(partitions, moves[..|moves| - 1])
  {
    var init := moves[..|moves| - 1];
    forall i | 0 <= i < |init| && init[i].Consume?
      ensures Undisturbed(RetryCircuit.Run(partitions, init[..i]).c, init[i].action)
    {
      assert init[..i] == moves[..i];
    }
  }

  lemma {:induction false} QuietRunKeepsInv(partitions: nat, moves: seq<Move>)
    requires partitions > 0 && QuietRun(partitions, moves)
    ensures QuietInv(RetryCircuit.Run(partitions, moves))
  {
    if moves == [] {
      EmptyTopicIsGood(partitions);
    } else {
      var n := |moves| - 1;
      QuietInit(partitions, moves);
      QuietRunKeepsInv(partitions, moves[..n]);
      QuietMove(RetryCircuit.Run(partitions, moves[..n]), moves[n]);
    }
  }

  // ---------------------------------------------------------------- the read model as one fold

  /** The first `cuts[p]` entries of each of the first `n` partitions, repeats dropped, partition by partition. */
  ghost function Merged(topic: Topic, cuts: seq<nat>, n: nat): seq<Event>
    requires |cuts| == |topic| && n <= |topic| && forall p :: 0 <= p < |topic| ==> cuts[p] <= |topic[p]|
  {
    if n == 0 then [] else Merged(topic, cuts, n - 1) + Seen(topic[n - 1], cuts[n - 1])
  }

  lemma {:induction false} SeenIsRouted(topic: Topic, p: nat, k: nat, e: Event)
    requires Routed(topic) && p < |topic| && k <= |topic[p]| && e in Seen(topic[p], k)
    ensures PartitionOf(e.orderId, |topic|) == p
  {
    FirstCopiesSubset(EventsIn(topic[p][..k]), e);
    var i :| 0 <= i < k && EventsIn(topic[p][..k])[i] == e;
    assert Holds(topic, p, i, e);
  }

  lemma {:induction false} ForeignPartition(topic: Topic, p: nat, k: nat, oid: Id)
    requires Routed(topic) && p < |topic| && k <= |topic[p]| && PartitionOf(oid, |topic|) != p
    ensures OrderLog(Seen(topic[p], k), oid) == []
  {
    forall e ensures e !in OrderLog(Seen(topic[p], k), oid) {
      OrderLogElements(Seen(topic[p], k), oid, e);
      if e in Seen(topic[p], k) {
        SeenIsRouted(topic, p, k, e);
      }
    }
    assert OrderLog(Seen(topic[p], k), oid) == [] ||
        OrderLog(Seen(topic[p], k), oid)[0] in OrderLog(Seen(topic[p], k), oid);
  }

  lemma {:induction false} JoinedLog(a: seq<Event>, b: seq<Event>, oid: Id, log: seq<Event>, c: seq<Event>)
    requires (OrderLog(a, oid) == [] && OrderLog(b, oid) == log) || (OrderLog(a, oid) == log && OrderLog(b, oid) == [])
    requires c == a + b
    ensures OrderLog(c, oid) == log
  {
    OrderLogConcat(a, b, oid);
  }

  /** Of an order the merged log holds what its own partition holds. */
  lemma {:induction false} MergedOrder(topic: Topic, cuts: seq<nat>, n: nat, oid: Id) returns (log: seq<Event>)
    requires |cuts| == |topic| && n <= |topic| && (forall p :: 0 <= p < |topic| ==> cuts[p] <= |topic[p]|)
    requires Routed(topic)
    ensures var p := PartitionOf(oid, |topic|);
            log == if p < n then OrderLog(Seen(topic[p], cuts[p]), oid) else []
    ensures OrderLog(Merged(topic, cuts, n), oid) == log
  {
    if n == 0 {
      log := [];
    } else {
      var before := MergedOrder(topic, cuts, n - 1, oid);
      if PartitionOf(oid, |topic|) == n - 1 {
        log := OrderLog(Seen(topic[n - 1], cuts[n - 1]), oid);
      } else {
        log := before;
        ForeignPartition(topic, n - 1, cuts[n - 1], oid);
      }
      JoinedLog(Merged(topic, cuts, n - 1), Seen(topic[n - 1], cuts[n - 1]), oid, log, Merged(topic, cuts, n));
    }
  }

  lemma {:induction false} TablesAreFold(topic: Topic, t: Tables, cuts: seq<nat>)
    requires |cuts| == |topic| &&
        (forall p :: 0 <= p < |topic| ==> cuts[p] <= |topic[p]| && AtCut(topic, t, p, cuts[p]))
    requires Routed(topic)
    ensures t == ProjectAll(EMPTY, Merged(topic, cuts, |topic|))
  {
    var all := Merged(topic, cuts, |topic|);
    forall oid ensures ViewOf(t, oid) == ViewOf(ProjectAll(EMPTY, all), oid) {
      var p := PartitionOf(oid, |topic|);
      var log := MergedOrder(topic, cuts, |topic|, oid);
      ProjectAllIsLocal(EMPTY, all, oid);
      assert ViewOf(EMPTY, oid) == ABSENT;
      assert AtCut(topic, t, p, cuts[p]);
    }
    SameViewsSameTables(t, ProjectAll(EMPTY, all));
  }

  /** In every run with crashes between any two steps, the read model is the fold of a prefix of every partition with
      repeated event ids dropped, each prefix being what is committed or one entry more. */
  lemma {:induction false} CrashSafeConsumer(partitions: nat, moves: seq<Move>) returns (cuts: seq<nat>)
    requires partitions > 0 && QuietRun(partitions, moves)
    ensures var w := RetryCircuit.Run(partitions, moves);
            && |cuts| == |w.topic| == |w.c.committed|
            && (forall p :: 0 <= p < |cuts| ==>
                  cuts[p] <= |w.topic[p]| && (cuts[p] == w.c.committed[p] || cuts[p] == w.c.committed[p] + 1))
            && w.c.tables == ProjectAll(EMPTY, Merged(w.topic, cuts, |w.topic|))
  {
    QuietRunKeepsInv(partitions, moves);
    var w := RetryCircuit.Run(partitions, moves);
    cuts := seq(|w.topic|, p requires 0 <= p < |w.topic| =>
      if AtCut(w.topic, w.c.tables, p, w.c.committed[p]) then w.c.committed[p] else w.c.committed[p] + 1);
    forall p | 0 <= p < |w.topic| ensures cuts[p] <= |w.topic[p]| && AtCut(w.topic, w.c.tables, p, cuts[p]) {
      assert PartitionInv(w.topic, w.c, p);
    }
    TablesAreFold(w.topic, w.c.tables, cuts);
  }
}
