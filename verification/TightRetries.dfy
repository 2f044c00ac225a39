/** The bounds on retries are met: how often an event must have gone round before it is given up
    (lambda_handlers/retry_handler.py, consumers/main.py). */
module TightRetries {
  import opened BoundedRetries
  import opened Consumer
  import opened Events
  import opened LostEvents
  import opened RetryCircuit
  import opened Seqs
  import opened Topics

  // ---------------------------------------------------------------- at least

  /** A re-publication that takes effect, acknowledged or not. */
  predicate Resends(w: World, move: Move, e: Event)
  {
    && move.Republish? && move.outcome != Raised && move.p < |w.topic|
    && move.id in w.c.dlq && w.c.dlq[move.id].retryCount < 3 && w.c.dlq[move.id].event == e
  }

  /** A copy of the event with `k` retries stands for `k` re-publications and as many failed deliveries. */
  ghost predicate Earned(w: World, e: Event, resent: nat, failed: nat)
  {
    && (forall p, i :: 0 <= p < |w.topic| && 0 <= i < |w.topic[p]| && w.topic[p][i].event == e ==>
          w.topic[p][i].retryCount <= resent && w.topic[p][i].retryCount <= failed)
    && (w.c.phase.Busy? && w.c.phase.m.event == e ==>
          w.c.phase.m.retryCount <= resent && w.c.phase.m.retryCount <= failed)
    && (forall id :: id in w.c.dlq && w.c.dlq[id].event == e ==>
          w.c.dlq[id].retryCount <= resent && w.c.dlq[id].retryCount + 1 <= failed)
    && (e in w.dead ==> 3 <= resent && 4 <= failed)
  }

  lemma {:induction false} ConsumeEarns(w: World, a: Action, e: Event, resent: nat, failed: nat)
    requires Earned(w, e, resent, failed)
    ensures Earned(Next(w, Consume(a)), e, resent, failed + if FailedDelivery(w, Consume(a), e) then 1 else 0)
  {
  }

  lemma {:induction false} NextEarns(w: World, move: Move, e: Event, resent: nat, failed: nat)
    requires Earned(w, e, resent, failed)
    ensures Earned(Next(w, move), e, resent + if Resends(w, move, e) then 1 else 0,
                   failed + if FailedDelivery(w, move, e) then 1 else 0)
  {
    if move.Consume? {
      ConsumeEarns(w, move.action, e, resent, failed);
    }
  }

  lemma {:induction false} RunEarns(partitions: nat, moves: seq<Move>, e: Event)
    ensures Earned(RetryCircuit.Run(partitions, moves), e,
                   Count(partitions, moves, (w, m) => Resends(w, m, e)),
                   Count(partitions, moves, (w, m) => FailedDelivery(w, m, e)))
  {
    if moves != [] {
      var n := |moves| - 1;
      RunEarns(partitions, moves[..n], e);
      NextEarns(RetryCircuit.Run(partitions, moves[..n]), moves[n], e,
                Count(partitions, moves[..n], (w, m) => Resends(w, m, e)),
                Count(partitions, moves[..n], (w, m) => FailedDelivery(w, m, e)));
    }
  }

  /** In any run whatever, an event that was given up has been re-published at least three times and has failed at least
      four deliveries. */
  lemma {:induction false} GivenUpOnlyAfterAllRetries(partitions: nat, moves: seq<Move>, e: Event)
    requires e in RetryCircuit.Run(partitions, moves).dead
    ensures Count(partitions, moves, (w, m) => Resends(w, m, e)) >= 3
    ensures Count(partitions, moves, (w, m) => FailedDelivery(w, m, e)) >= 4
  {
    RunEarns(partitions, moves, e);
  }

  // ---------------------------------------------------------------- exactly

  /** A delivery that fails, and the handler's re-publication and delete of message `k`. */
  function Round(p: nat, k: nat): seq<Move>
  {
    Failing(p, Ok) + [Republish(k, p, Ok)] + [Delete(k, Ok)]
  }

  function Rounds(p: nat, n: nat): seq<Move>
  {
    if n == 0 then [] else Rounds(p, n - 1) + Round(p, n - 1)
  }

  /** The last failure, after which the handler gives up. */
  function LastRound(p: nat): seq<Move>
  {
    Failing(p, Ok) + [DeadLetter(3, Ok)] + [Delete(3, Ok)]
  }

  function GiveUp(p: nat, e: Event): seq<Move>
  {
    [Produce(e)] + Rounds(p, 3) + LastRound(p)
  }

  /** The copies of an event that has gone round `n` times. */
  function Trail(e: Event, n: nat): seq<Message>
  {
    seq(n + 1, i requires 0 <= i <= n => Message(e, i))
  }

  /** After `n` rounds. */
  ghost predicate Rounded(w: World, partitions: nat, p: nat, e: Event, n: nat)
    requires p < partitions
  {
    && w.topic == EmptyTopic(partitions)[p := Trail(e, n)] && w.dead == {}
    && w.c == Start(partitions).(committed := Start(partitions).committed[p := n], sends := n)
    && (forall id: nat :: id in w.settled <==> id < n)
  }

  lemma {:induction false} RoundRun(w: World, partitions: nat, p: nat, e: Event, n: nat, next: nat) returns (w': World)
    requires p < partitions && e.payload.ItemAdded? && n < 3 && next == n + 1 && Rounded(w, partitions, p, e, n)
    ensures w' == Fold(Next, w, Round(p, n)) && Rounded(w', partitions, p, e, next)
    ensures SmoothFrom(w, Round(p, n))
  {
    var m := Message(e, n);
    var w1 := w.(c := Given(w.c, p, m, Ok));
    FailingRun(w, p, e, Ok);
    FoldSnoc(Next, w, Failing(p, Ok), Republish(n, p, Ok));
    FoldSnoc(Next, w, Failing(p, Ok) + [Republish(n, p, Ok)], Delete(n, Ok));
    var w2 := World(Put(w.topic, p, Message(e, n + 1)), w1.c, w.settled + {n}, {});
    assert w1.c.dlq == map[n := m];
    assert Next(w1, Republish(n, p, Ok)) == w2;
    w' := w2.(c := w2.c.(dlq := map[]));
    assert w2.c.dlq - {n} == map[];
    assert Trail(e, n + 1) == Trail(e, n) + [Message(e, n + 1)];
    FailingIsSmooth(w, p);
    SmoothSnoc(w, Failing(p, Ok), Republish(n, p, Ok));
    SmoothSnoc(w, Failing(p, Ok) + [Republish(n, p, Ok)], Delete(n, Ok));
  }

  lemma {:induction false} LastRoundRun(w: World, partitions: nat, p: nat, e: Event) returns (w': World)
    requires p < partitions && e.payload.ItemAdded? && Rounded(w, partitions, p, e, 3)
    ensures w' == Fold(Next, w, LastRound(p)) && SmoothFrom(w, LastRound(p))
    ensures w'.dead == {e} && w'.c.dlq == map[] && w'.topic == w.topic
    ensures w'.c.committed == Start(partitions).committed[p := 4]
  {
    var m := Message(e, 3);
    var w1 := w.(c := Given(w.c, p, m, Ok));
    FailingRun(w, p, e, Ok);
    FoldSnoc(Next, w, Failing(p, Ok), DeadLetter(3, Ok));
    FoldSnoc(Next, w, Failing(p, Ok) + [DeadLetter(3, Ok)], Delete(3, Ok));
    assert w1.c.dlq == map[3 := m];
    var w2 := World(w.topic, w1.c, w.settled + {3}, {e});
    assert Next(w1, DeadLetter(3, Ok)) == w2;
    w' := w2.(c := w2.c.(dlq := map[]));
    assert w2.c.dlq - {3} == map[];
    FailingIsSmooth(w, p);
    SmoothSnoc(w, Failing(p, Ok), DeadLetter(3, Ok));
    SmoothSnoc(w, Failing(p, Ok) + [DeadLetter(3, Ok)], Delete(3, Ok));
  }

  // ---------------------------------------------------------------- the run is smooth

  ghost predicate SmoothAt(w: World, moves: seq<Move>, i: nat)
    requires i < |moves|
  {
    Smooth(Fold(Next, w, moves[..i]), moves[i])
  }

  ghost predicate SmoothFrom(w: World, moves: seq<Move>)
  {
    forall i: nat :: i < |moves| ==> SmoothAt(w, moves, i)
  }

  lemma {:induction false} SmoothSnoc(w: World, moves: seq<Move>, m: Move)
    requires SmoothFrom(w, moves) && Smooth(Fold(Next, w, moves), m)
    ensures SmoothFrom(w, moves + [m])
  {
    var all := moves + [m];
    forall i: nat | i < |all| ensures SmoothAt(w, all, i) {
      if i < |moves| {
        assert SmoothAt(w, moves, i);
        assert all[..i] == moves[..i];
      } else {
        assert all[..i] == moves;
      }
    }
  }

  lemma {:induction false} SmoothConcat(w: World, a: seq<Move>, b: seq<Move>)
    requires SmoothFrom(w, a) && SmoothFrom(Fold(Next, w, a), b)
    ensures SmoothFrom(w, a + b)
  {
    var all := a + b;
    forall i: nat | i < |all| ensures SmoothAt(w, all, i) {
      if i < |a| {
        assert SmoothAt(w, a, i);
        assert all[..i] == a[..i];
      } else {
        assert SmoothAt(Fold(Next, w, a), b, i - |a|);
        assert all[..i] == a + b[..i - |a|];
        FoldConcat(Next, w, a, b[..i - |a|]);
      }
    }
  }

  lemma {:induction false} FailingIsSmooth(w: World, p: nat)
    ensures SmoothFrom(w, Failing(p, Ok))
  {
    forall i: nat | i < |Failing(p, Ok)| ensures SmoothAt(w, Failing(p, Ok), i) {
      AlwaysSmooth(Fold(Next, w, Failing(p, Ok)[..i]), Failing(p, Ok)[i]);
    }
  }

  lemma AlwaysSmooth(w: World, move: Move)
    requires move.Consume? && !move.action.Crash? && (move.action.Commit? ==> move.action.outcome == Ok)
    ensures Smooth(w, move)
  {
  }

  // ---------------------------------------------------------------- the whole run

  lemma {:induction false} RoundsRun(w: World, partitions: nat, p: nat, e: Event, n: nat) returns (w': World)
    requires p < partitions && e.payload.ItemAdded? && n <= 3 && Rounded(w, partitions, p, e, 0)
    ensures w' == Fold(Next, w, Rounds(p, n)) && Rounded(w', partitions, p, e, n)
    ensures SmoothFrom(w, Rounds(p, n))
    decreases n
  {
    if n == 0 {
      w' := w;
    } else {
      var before := RoundsRun(w, partitions, p, e, n - 1);
      w' := RoundRun(before, partitions, p, e, n - 1, n);
      FoldConcat(Next, w, Rounds(p, n - 1), Round(p, n - 1));
      SmoothConcat(w, Rounds(p, n - 1), Round(p, n - 1));
    }
  }

  lemma {:induction false} GiveUpRun(partitions: nat, e: Event) returns (w: World)
    requires partitions > 0 && e.payload.ItemAdded?
    ensures var p := PartitionOf(e.orderId, partitions);
            && w == RetryCircuit.Run(partitions, GiveUp(p, e)) && SmoothFrom(Begin(partitions), GiveUp(p, e))
            && w.dead == {e} && w.c.dlq == map[]
            && |w.c.committed| == |w.topic| && (forall q :: 0 <= q < |w.topic| ==> w.c.committed[q] == |w.topic[q]|)
  {
    var p := PartitionOf(e.orderId, partitions);
    var w0 := World(Put(EmptyTopic(partitions), p, Message(e, 0)), Start(partitions), {}, {});
    FirstProduced(partitions, e);
    assert EmptyTopic(partitions)[p] + [Message(e, 0)] == Trail(e, 0);
    assert Start(partitions).committed[p := 0] == Start(partitions).committed;
    assert Rounded(w0, partitions, p, e, 0);
    var w1 := RoundsRun(w0, partitions, p, e, 3);
    w := LastRoundRun(w1, partitions, p, e);
    var first := [Produce(e)];
    FoldConcat(Next, Begin(partitions), first, Rounds(p, 3));
    FoldConcat(Next, Begin(partitions), first + Rounds(p, 3), LastRound(p));
    ProduceIsSmooth(Begin(partitions), e);
    SmoothConcat(Begin(partitions), first, Rounds(p, 3));
    SmoothConcat(Begin(partitions), first + Rounds(p, 3), LastRound(p));
  }

  lemma {:induction false} ProduceIsSmooth(w: World, e: Event)
    ensures SmoothFrom(w, [Produce(e)])
  {
    forall i: nat | i < 1 ensures SmoothAt(w, [Produce(e)], i) {
    }
  }

  lemma {:induction false} PublishedOnce(partitions: nat, moves: seq<Move>, e: Event)
    requires forall i :: 1 <= i < |moves| ==> !moves[i].Produce?
    ensures Count(partitions, moves, (w, m) => Produces(w, m, e)) <= 1
    ensures |moves| == 0 ==> Count(partitions, moves, (w, m) => Produces(w, m, e)) == 0
  {
    if moves != [] {
      PublishedOnce(partitions, moves[..|moves| - 1], e);
    }
  }

  lemma {:induction false} OnlyFirstIsProduce(p: nat, e: Event)
    ensures forall i :: 1 <= i < |GiveUp(p, e)| ==> !GiveUp(p, e)[i].Produce?
  {
    RoundsProduceNothing(p, 3);
  }

  lemma {:induction false} RoundsProduceNothing(p: nat, n: nat)
    ensures forall m :: m in Rounds(p, n) ==> !m.Produce?
  {
    if n > 0 {
      RoundsProduceNothing(p, n - 1);
    }
  }

  lemma {:induction false} ResentIsRepublished(partitions: nat, moves: seq<Move>, e: Event)
    requires SmoothRun(partitions, moves)
    ensures Count(partitions, moves, (w, m) => Resends(w, m, e)) ==
            Count(partitions, moves, (w, m) => Republishes(w, m, e))
  {
    if moves != [] {
      var n := |moves| - 1;
      SmoothPrefix(partitions, moves);
      ResentIsRepublished(partitions, moves[..n], e);
      assert Smooth(RetryCircuit.Run(partitions, moves[..n]), moves[n]);
    }
  }

  /** The bounds are met: for every line that comes before its order there is a crash-free run, with every queue message
      handled once, in which it is published once, re-published exactly three times, fails exactly four deliveries, and
      ends as a dead letter with everything consumed and the queue empty. */
  lemma {:induction false} RetriesAreTight(partitions: nat, e: Event)
    requires partitions > 0 && e.payload.ItemAdded?
    ensures var moves := GiveUp(PartitionOf(e.orderId, partitions), e);
            var w := RetryCircuit.Run(partitions, moves);
            && SmoothRun(partitions, moves) && e in w.dead && w.c.dlq == map[]
            && |w.c.committed| == |w.topic| && (forall q :: 0 <= q < |w.topic| ==> w.c.committed[q] == |w.topic[q]|)
            && Count(partitions, moves, (w, m) => Produces(w, m, e)) == 1
            && Count(partitions, moves, (w, m) => Republishes(w, m, e)) == 3
            && Count(partitions, moves, (w, m) => FailedDelivery(w, m, e)) == 4
  {
    var p := PartitionOf(e.orderId, partitions);
    var moves := GiveUp(p, e);
    var w := GiveUpRun(partitions, e);
    assert SmoothRun(partitions, moves) by {
      forall i | 0 <= i < |moves| ensures Smooth(RetryCircuit.Run(partitions, moves[..i]), moves[i]) {
        assert SmoothAt(Begin(partitions), moves, i);
      }
    }
    OnlyFirstIsProduce(p, e);
    PublishedOnce(partitions, moves, e);
    RetriesAreBounded(partitions, moves, e);
    GivenUpOnlyAfterAllRetries(partitions, moves, e);
    ResentIsRepublished(partitions, moves, e);
  }
}
