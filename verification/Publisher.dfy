/** `KafkaEventPublisher.publish` with its retry decorator (api/services/publisher.py). */
module Publisher {
  import opened Events
  import opened Seqs
  import opened Topics
  import opened WriteSide

  /** How the send and the key write of one attempt end. */
  datatype Attempt = Attempt(send: Outcome, mark: Outcome)

  /** The attempts as steps of the protocol; steps that are no longer enabled change nothing. */
  function AttemptSteps(h: nat, attempts: seq<Attempt>): seq<Action>
  {
    if attempts == [] then [] else
      var last := attempts[|attempts| - 1];
      AttemptSteps(h, attempts[..|attempts| - 1]) + [Send(h, last.send), SetKey(h, last.mark)]
  }

  lemma {:induction false} AttemptStep(h: nat, s: State, attempts: seq<Attempt>, a: Attempt)
    ensures Fold(Step, s, AttemptSteps(h, attempts + [a])) ==
            Step(Step(Fold(Step, s, AttemptSteps(h, attempts)), Send(h, a.send)), SetKey(h, a.mark))
  {
    var before := AttemptSteps(h, attempts);
    assert (attempts + [a])[..|attempts|] == attempts;
    assert AttemptSteps(h, attempts + [a]) == before + [Send(h, a.send)] + [SetKey(h, a.mark)];
    FoldSnoc(Step, s, before, Send(h, a.send));
    FoldSnoc(Step, s, before + [Send(h, a.send)], SetKey(h, a.mark));
  }

  lemma {:induction false} NextAttemptIs(h: nat, start: State, attempts: seq<Attempt>, i: nat, before: State)
    requires i < |attempts| && Fold(Step, start, AttemptSteps(h, attempts[..i])) == before
    ensures Fold(Step, start, AttemptSteps(h, attempts[..i + 1])) ==
            Step(Step(before, Send(h, attempts[i].send)), SetKey(h, attempts[i].mark))
  {
    assert attempts[..i + 1] == attempts[..i] + [attempts[i]];
    AttemptStep(h, start, attempts[..i], attempts[i]);
  }

  lemma {:induction false} DoneIgnoresOne(h: nat, s: State, init: seq<Attempt>, a: Attempt, attempts: seq<Attempt>)
    requires var t := Fold(Step, s, AttemptSteps(h, init)); h in t.handlers && !t.handlers[h].Publishing?
    requires attempts == init + [a]
    ensures Fold(Step, s, AttemptSteps(h, attempts)) == Fold(Step, s, AttemptSteps(h, init))
  {
    AttemptStep(h, s, init, a);
    DoneStays(Fold(Step, s, AttemptSteps(h, init)), h, a);
  }

  /** A handler that has finished publishing ignores further attempts. */
  lemma {:induction false} DoneIgnoresAttempts(h: nat, s: State, attempts: seq<Attempt>, n: nat)
    requires n <= |attempts|
    requires var t := Fold(Step, s, AttemptSteps(h, attempts[..n])); h in t.handlers && !t.handlers[h].Publishing?
    ensures Fold(Step, s, AttemptSteps(h, attempts)) == Fold(Step, s, AttemptSteps(h, attempts[..n]))
    decreases |attempts|
  {
    if n < |attempts| {
      var init := attempts[..|attempts| - 1];
      assert init[..n] == attempts[..n];
      DoneIgnoresAttempts(h, s, init, n);
      DoneIgnoresOne(h, s, init, attempts[|attempts| - 1], attempts);
    } else {
      assert attempts[..n] == attempts;
    }
  }

  // ---------------------------------------------------------------- what publishing leaves behind

  function Copies(e: Event, n: nat): seq<Message>
  {
    seq(n, _ => Message(e, 0))
  }

  /** The attempt leaves the event's key behind, acknowledged or not. */
  predicate Ends(a: Attempt)
  {
    a.send == Ok && a.mark != Raised
  }

  predicate Ended(attempts: seq<Attempt>)
  {
    exists k :: 0 <= k < |attempts| && Ends(attempts[k])
  }

  /** Some attempt, or the one after it, found out that the key is there. */
  predicate Acknowledged(attempts: seq<Attempt>)
  {
    exists k :: 0 <= k < |attempts| && Ends(attempts[k]) && (attempts[k].mark == Ok || k + 1 < |attempts|)
  }

  /** Attempt `i` puts a copy on the topic: its send takes effect and no attempt before it has left the key. */
  predicate Sends(attempts: seq<Attempt>, i: nat)
  {
    i < |attempts| && attempts[i].send != Raised && !Ended(attempts[..i])
  }

  function CopiesSent(attempts: seq<Attempt>): nat
  {
    if attempts == [] then 0 else
      CopiesSent(attempts[..|attempts| - 1]) + if Sends(attempts, |attempts| - 1) then 1 else 0
  }

  function Waiting(e: Event, n: nat): Handler
  {
    if n < PUBLISH_ATTEMPTS then Publishing(e, n, false) else Failed
  }

  /** `start` after the attempts, for an event that was not marked before. */
  ghost function After(start: State, h: nat, e: Event, attempts: seq<Attempt>): State
    requires start.topic != []
  {
    var p := PartitionOf(e.orderId, |start.topic|);
    State(
      start.docs,
      start.handlers[h := if Acknowledged(attempts) then Responded(e) else Waiting(e, |attempts|)],
      start.topic[p := start.topic[p] + Copies(e, CopiesSent(attempts))],
      if Ended(attempts) then start.publishedKeys + {e.eventId} else start.publishedKeys)
  }

  lemma {:induction false} EndedSnoc(attempts: seq<Attempt>, a: Attempt)
    ensures Ended(attempts + [a]) <==> Ended(attempts) || Ends(a)
    ensures Acknowledged(attempts + [a]) <==> Ended(attempts) || (Ends(a) && a.mark == Ok)
    ensures CopiesSent(attempts + [a]) == CopiesSent(attempts) + if a.send != Raised && !Ended(attempts) then 1 else 0
  {
    var all := attempts + [a];
    assert all[..|attempts|] == attempts && all[|attempts|] == a;
    forall k | 0 <= k < |attempts| ensures all[k] == attempts[k] {
    }
    if Ended(attempts) {
      var k :| 0 <= k < |attempts| && Ends(attempts[k]);
      assert Ends(all[k]);
    }
    if Ends(a) {
      assert Ends(all[|attempts|]);
    }
  }

  lemma {:induction false} OneMoreCopy(topic: Topic, p: nat, e: Event, n: nat)
    requires p < |topic|
    ensures Put(topic[p := topic[p] + Copies(e, n)], p, Message(e, 0)) == topic[p := topic[p] + Copies(e, n + 1)]
  {
    assert Copies(e, n + 1) == Copies(e, n) + [Message(e, 0)];
    assert topic[p] + Copies(e, n) + [Message(e, 0)] == topic[p] + Copies(e, n + 1);
  }

  /** One attempt of a handler that is still publishing. */
  lemma {:induction false} OneAttempt(s: State, h: nat, e: Event, i: nat, a: Attempt)
    requires s.topic != [] && h in s.handlers && s.handlers[h] == Publishing(e, i, false)
    ensures var t := Step(Step(s, Send(h, a.send)), SetKey(h, a.mark));
            var p := PartitionOf(e.orderId, |s.topic|);
            && t.docs == s.docs
            && t.topic == (if e.eventId !in s.publishedKeys && a.send != Raised
                           then Put(s.topic, p, Message(e, 0)) else s.topic)
            && t.publishedKeys == (if Ends(a) then s.publishedKeys + {e.eventId} else s.publishedKeys)
            && t.handlers == s.handlers[h := if e.eventId in s.publishedKeys || (Ends(a) && a.mark == Ok)
                                             then Responded(e) else NextAttempt(e, i)]
  {
    if e.eventId in s.publishedKeys {
      assert s.publishedKeys + {e.eventId} == s.publishedKeys;
    }
  }

  lemma {:induction false} AttemptsExact(start: State, h: nat, e: Event, attempts: seq<Attempt>)
    requires start.topic != [] && h in start.handlers && start.handlers[h] == Publishing(e, 0, false)
    requires e.eventId !in start.publishedKeys && |attempts| <= PUBLISH_ATTEMPTS
    ensures Fold(Step, start, AttemptSteps(h, attempts)) == After(start, h, e, attempts)
  {
    if attempts == [] {
      var p := PartitionOf(e.orderId, |start.topic|);
      assert start.topic[p] + Copies(e, 0) == start.topic[p];
      assert start.topic[p := start.topic[p]] == start.topic;
      assert start.handlers[h := start.handlers[h]] == start.handlers;
    } else {
      var init, last := attempts[..|attempts| - 1], attempts[|attempts| - 1];
      AttemptsExact(start, h, e, init);
      AttemptStep(h, start, init, last);
      assert init + [last] == attempts;
      OneAttemptAfter(start, h, e, init, last);
    }
  }

  lemma {:induction false} OneAttemptAfter(start: State, h: nat, e: Event, init: seq<Attempt>, a: Attempt)
    requires start.topic != [] && e.eventId !in start.publishedKeys && |init| < PUBLISH_ATTEMPTS
    ensures Step(Step(After(start, h, e, init), Send(h, a.send)), SetKey(h, a.mark)) == After(start, h, e, init + [a])
  {
    var s := After(start, h, e, init);
    EndedSnoc(init, a);
    if Acknowledged(init) {
      assert Ended(init);
      DoneStays(s, h, a);
    } else {
      OneAttempt(s, h, e, |init|, a);
      OneMoreCopy(start.topic, PartitionOf(e.orderId, |start.topic|), e, CopiesSent(init));
    }
  }

  /** The whole effect of publishing an event that was not marked before: as many copies in its partition as attempts
      have sent, its key exactly when an attempt left it, and a normal return exactly when that was noticed. Nothing
      else changes. */
  lemma {:induction false} PublishExactly(start: State, h: nat, e: Event, attempts: seq<Attempt>)
    requires start.topic != [] && h in start.handlers && start.handlers[h] == Publishing(e, 0, false)
    requires e.eventId !in start.publishedKeys && |attempts| == 3
    ensures var t, p := Fold(Step, start, AttemptSteps(h, attempts)), PartitionOf(e.orderId, |start.topic|);
            && t.docs == start.docs
            && t.topic == start.topic[p := start.topic[p] + Copies(e, CopiesSent(attempts))]
            && (e.eventId in t.publishedKeys <==> exists k :: 0 <= k < |attempts| && Ends(attempts[k]))
            && t.publishedKeys - {e.eventId} == start.publishedKeys
            && h in t.handlers && t.handlers == start.handlers[h := t.handlers[h]]
            && (t.handlers[h] == Responded(e) || t.handlers[h] == Failed)
            && (t.handlers[h] == Responded(e) <==>
                  exists k :: 0 <= k < |attempts| && Ends(attempts[k]) &&
                    (attempts[k].mark == Ok || k + 1 < 3))
            && (t.handlers[h] == Responded(e) ==> CopiesSent(attempts) >= 1)
            && CopiesSent(attempts) <= 3
  {
    AttemptsExact(start, h, e, attempts);
    EndedIsSent(attempts);
    CopiesBounded(attempts);
  }

  /** There are three attempts and no fourth: while all sends raise the handler goes on after one and after two of them,
      and has failed after the third, whatever would come after. */
  lemma {:induction false} ThreeAttempts(start: State, h: nat, e: Event, attempts: seq<Attempt>)
    requires start.topic != [] && h in start.handlers && start.handlers[h] == Publishing(e, 0, false)
    requires e.eventId !in start.publishedKeys && |attempts| >= 3
    requires attempts[0].send == Raised && attempts[1].send == Raised && attempts[2].send == Raised
    ensures After(start, h, e, attempts[..1]) == Fold(Step, start, AttemptSteps(h, attempts[..1]))
    ensures After(start, h, e, attempts[..1]).handlers[h] == Publishing(e, 1, false)
    ensures After(start, h, e, attempts[..2]) == Fold(Step, start, AttemptSteps(h, attempts[..2]))
    ensures After(start, h, e, attempts[..2]).handlers[h] == Publishing(e, 2, false)
    ensures Fold(Step, start, AttemptSteps(h, attempts)) == WithHandler(start, h, Failed)
  {
    AttemptsExact(start, h, e, attempts[..1]);
    AttemptsExact(start, h, e, attempts[..2]);
    AttemptsExact(start, h, e, attempts[..3]);
    RaisingSendsNothing(start, h, e, attempts[..3]);
    DoneIgnoresAttempts(h, start, attempts, 3);
  }

  lemma {:induction false} RaisingSendsNothing(start: State, h: nat, e: Event, attempts: seq<Attempt>)
    requires start.topic != [] && forall i :: 0 <= i < |attempts| ==> attempts[i].send == Raised
    ensures After(start, h, e, attempts) == WithHandler(start, h, Waiting(e, |attempts|))
  {
    NoCopies(attempts);
    var p := PartitionOf(e.orderId, |start.topic|);
    assert start.topic[p] + Copies(e, 0) == start.topic[p];
    assert start.topic[p := start.topic[p]] == start.topic;
  }

  lemma {:induction false} NoCopies(attempts: seq<Attempt>)
    requires forall i :: 0 <= i < |attempts| ==> attempts[i].send == Raised
    ensures CopiesSent(attempts) == 0
  {
    if attempts != [] {
      NoCopies(attempts[..|attempts| - 1]);
    }
  }

  /** Publishing an event that is marked sends nothing. */
  lemma {:induction false} MarkedIsNotSent(start: State, h: nat, e: Event, attempts: seq<Attempt>)
    requires h in start.handlers && start.handlers[h] == Publishing(e, 0, false)
    requires e.eventId in start.publishedKeys && attempts != []
    ensures Fold(Step, start, AttemptSteps(h, attempts)) == WithHandler(start, h, Responded(e))
  {
    var init, last := attempts[..|attempts| - 1], attempts[|attempts| - 1];
    assert init + [last] == attempts;
    AttemptStep(h, start, init, last);
    if init == [] {
      MarkedStep(start, h, e, last);
    } else {
      MarkedIsNotSent(start, h, e, init);
      DoneStays(WithHandler(start, h, Responded(e)), h, last);
    }
  }

  lemma DoneStays(s: State, h: nat, a: Attempt)
    requires h in s.handlers && !s.handlers[h].Publishing?
    ensures Step(Step(s, Send(h, a.send)), SetKey(h, a.mark)) == s
  {
  }

  lemma MarkedStep(start: State, h: nat, e: Event, a: Attempt)
    requires h in start.handlers && start.handlers[h] == Publishing(e, 0, false) && e.eventId in start.publishedKeys
    ensures Step(Step(start, Send(h, a.send)), SetKey(h, a.mark)) == WithHandler(start, h, Responded(e))
  {
  }

  // ---------------------------------------------------------------- how many copies

  lemma {:induction false} CopiesBounded(attempts: seq<Attempt>)
    ensures CopiesSent(attempts) <= |attempts|
  {
    if attempts != [] {
      CopiesBounded(attempts[..|attempts| - 1]);
    }
  }

  lemma {:induction false} EndedIsSent(attempts: seq<Attempt>)
    ensures Ended(attempts) ==> CopiesSent(attempts) >= 1
  {
    if attempts != [] {
      var init, last := attempts[..|attempts| - 1], attempts[|attempts| - 1];
      EndedIsSent(init);
      EndedSnoc(init, last);
      assert init + [last] == attempts;
    }
  }

  lemma {:induction false} SendsInit(attempts: seq<Attempt>, i: nat)
    requires i + 1 < |attempts|
    ensures Sends(attempts, i) <==> Sends(attempts[..|attempts| - 1], i)
  {
    assert attempts[..|attempts| - 1][..i] == attempts[..i];
  }

  /** A copy is sent if and only if some send takes effect before any attempt has left the key. */
  lemma {:induction false} SentIff(attempts: seq<Attempt>)
    ensures CopiesSent(attempts) >= 1 <==> exists i :: Sends(attempts, i)
  {
    if attempts != [] {
      var n := |attempts| - 1;
      SentIff(attempts[..n]);
      forall i: nat | i < n ensures Sends(attempts, i) <==> Sends(attempts[..n], i) {
        SendsInit(attempts, i);
      }
      if CopiesSent(attempts[..n]) >= 1 {
        var i: nat :| Sends(attempts[..n], i);
        assert Sends(attempts, i);
      }
      if i: nat :| Sends(attempts, i) && i < n {
        assert Sends(attempts[..n], i);
      }
    }
  }

  /** The event is sent more than once if and only if two sends take effect before any attempt has left the key: the
      reply to the first was lost, or its key could not be written. */
  lemma {:induction false} DuplicatedIff(attempts: seq<Attempt>)
    ensures CopiesSent(attempts) > 1 <==> exists i, j :: i < j && Sends(attempts, i) && Sends(attempts, j)
  {
    if attempts != [] {
      var n := |attempts| - 1;
      DuplicatedIff(attempts[..n]);
      SentIff(attempts[..n]);
      forall i: nat | i < n ensures Sends(attempts, i) <==> Sends(attempts[..n], i) {
        SendsInit(attempts, i);
      }
      if CopiesSent(attempts[..n]) > 1 {
        var i: nat, j: nat :| i < j && Sends(attempts[..n], i) && Sends(attempts[..n], j);
        assert Sends(attempts, i) && Sends(attempts, j);
      }
      if CopiesSent(attempts[..n]) >= 1 {
        var i: nat :| Sends(attempts[..n], i);
        assert Sends(attempts, i) && i < n;
      }
      if i: nat, j: nat :| i < j && Sends(attempts, i) && Sends(attempts, j) {
        assert Sends(attempts[..n], i);
        assert j < n ==> Sends(attempts[..n], j);
      }
    }
  }

  /** The input: the reply to a send is lost, and the next attempt sends again. */
  lemma {:induction false} RetriedSendDuplicates(start: State, h: nat, e: Event)
    requires start.topic != [] && h in start.handlers && start.handlers[h] == Publishing(e, 0, false)
    requires e.eventId !in start.publishedKeys
    ensures var attempts := [Attempt(LostReply, Ok), Attempt(Ok, Ok), Attempt(Ok, Ok)];
            var t, p := Fold(Step, start, AttemptSteps(h, attempts)), PartitionOf(e.orderId, |start.topic|);
            && |t.topic| == |start.topic| && t.topic[p] == start.topic[p] + [Message(e, 0), Message(e, 0)]
            && h in t.handlers && t.handlers[h] == Responded(e)
  {
    var attempts := [Attempt(LostReply, Ok), Attempt(Ok, Ok), Attempt(Ok, Ok)];
    var one, two := [attempts[0]], [attempts[0], attempts[1]];
    EndedSnoc([], attempts[0]);
    EndedSnoc(one, attempts[1]);
    EndedSnoc(two, attempts[2]);
    assert [] + [attempts[0]] == one && one + [attempts[1]] == two && two + [attempts[2]] == attempts;
    assert !Ended([]) && CopiesSent([]) == 0;
    assert Copies(e, 2) == [Message(e, 0), Message(e, 0)];
    AttemptsExact(start, h, e, attempts);
  }

  // ---------------------------------------------------------------- the publisher object

  class KafkaEventPublisher {
    var topic: Topic
    var publishedKeys: set<Id>

    constructor (partitions: nat)
      ensures topic == EmptyTopic(partitions) && publishedKeys == {}
    {
      topic, publishedKeys := EmptyTopic(partitions), {};
    }

    /** The protocol state of one publishing handler. */
    ghost function With(docs: seq<Event>, h: nat, hd: Handler): State
      reads this
    {
      State(docs, map[h := hd], topic, publishedKeys)
    }

    /** One attempt; true when the publish returns. */
    method TryOnce(e: Event, p: nat, a: Attempt, ghost i: nat, ghost h: nat, ghost docs: seq<Event>)
        returns (done: bool)
      requires topic != [] && p == PartitionOf(e.orderId, |topic|)
      modifies this
      ensures |topic| == |old(topic)|
      ensures With(docs, h, if done then Responded(e) else NextAttempt(e, i)) ==
              Step(Step(old(With(docs, h, Publishing(e, i, false))), Send(h, a.send)), SetKey(h, a.mark))
    {
      if e.eventId in publishedKeys {
        return true;
      }
      if a.send != Raised {
        topic := Put(topic, p, Message(e, 0));
      }
      if a.send != Ok {
        return false;
      }
      if a.mark != Raised {
        publishedKeys := publishedKeys + {e.eventId};
      }
      return a.mark == Ok;
    }

    /** Three attempts of check, send and mark, with the effect of the protocol's steps for any stored events. */
    method Attempts(e: Event, p: nat, attempts: seq<Attempt>, ghost h: nat, ghost docs: seq<Event>) returns (ok: bool)
      requires topic != [] && p == PartitionOf(e.orderId, |topic|) && |attempts| == 3
      modifies this
      ensures With(docs, h, if ok then Responded(e) else Failed) ==
              Fold(Step, old(With(docs, h, Publishing(e, 0, false))), AttemptSteps(h, attempts))
    {
      ghost var start := With(docs, h, Publishing(e, 0, false));
      for i := 0 to PUBLISH_ATTEMPTS
        invariant |topic| == |old(topic)|
        invariant Fold(Step, start, AttemptSteps(h, attempts[..i])) ==
                  With(docs, h, if i < PUBLISH_ATTEMPTS then Publishing(e, i, false) else Failed)
      {
        ghost var before := With(docs, h, Publishing(e, i, false));
        var done := TryOnce(e, p, attempts[i], i, h, docs);
        NextAttemptIs(h, start, attempts, i, before);
        if done {
          DoneIgnoresAttempts(h, start, attempts, i + 1);
          return true;
        }
      }
      assert attempts[..PUBLISH_ATTEMPTS] == attempts;
      return false;
    }

    /** `publish`: the protocol's steps, and in plain terms: a marked event is not sent and the call returns; for any
        other the partition gets the copies that attempts sent, the key is left exactly if an attempt left it, and the
        call returns exactly if an attempt, or the one after it, found that out. */
    method Publish(e: Event, p: nat, attempts: seq<Attempt>, ghost h: nat, ghost docs: seq<Event>) returns (ok: bool)
      requires topic != [] && p == PartitionOf(e.orderId, |topic|) && |attempts| == 3
      modifies this
      ensures With(docs, h, if ok then Responded(e) else Failed) ==
              Fold(Step, old(With(docs, h, Publishing(e, 0, false))), AttemptSteps(h, attempts))
      ensures e.eventId in old(publishedKeys) ==> ok && topic == old(topic) && publishedKeys == old(publishedKeys)
      ensures e.eventId !in old(publishedKeys) ==>
              && topic == old(topic)[p := old(topic)[p] + Copies(e, CopiesSent(attempts))]
              && publishedKeys - {e.eventId} == old(publishedKeys)
              && (e.eventId in publishedKeys <==> exists k :: 0 <= k < 3 && Ends(attempts[k]))
      ensures ok <==> Returns(old(publishedKeys), e.eventId, attempts)
    {
      ghost var start := With(docs, h, Publishing(e, 0, false));
      if e.eventId in publishedKeys {
        MarkedIsNotSent(start, h, e, attempts);
      } else {
        PublishExactly(start, h, e, attempts);
      }
      ok := Attempts(e, p, attempts, h, docs);
    }
  }

  /** When a publish returns normally. */
  ghost predicate Returns(keys: set<Id>, eid: Id, attempts: seq<Attempt>)
    requires |attempts| == 3
  {
    || eid in keys
    || (exists k :: 0 <= k < 3 && attempts[k].send == Ok &&
          (attempts[k].mark == Ok || (attempts[k].mark == LostReply && k < 2)))
  }
}
