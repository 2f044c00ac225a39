/** From commands to the read model, when commands on one order do not overlap and nothing raises for good
    (api/routers/command_router.py, api/services/publisher.py, consumers/main.py, api/services/aggregate.py). */
module EndToEnd {
  import opened Aggregate
  import opened Agreement
  import opened CrashRuns
  import opened CrashSafety
  import opened Events
  import opened EventStore
  import opened LateRedelivery
  import opened Pipeline
  import opened ReadModel
  import opened Rebuild
  import opened Topics
  import opened WriteSide
  import Consumer
  import RetryCircuit

  /** A handler that is still going to store or publish something. */
  predicate Active(hd: Handler)
  {
    hd.Ready? || hd.Publishing?
  }

  predicate Idle(w: WriteSide.State, oid: Id)
  {
    forall h :: h in w.handlers && Active(w.handlers[h]) ==> w.handlers[h].event.orderId != oid
  }

  /** A handler fails that has stored its event: in this step, or before. */
  predicate PublishFails(w: WriteSide.State, w': WriteSide.State)
  {
    exists h :: h in w.handlers && h in w'.handlers && w'.handlers[h].Failed? &&
      (w.handlers[h].Publishing? || (w.handlers[h].Ready? && w'.docs != w.docs))
  }

  /** The hypotheses: a command on an order begins only when no other is under way on it, whatever is stored is
      published in the end, and the consumer takes no exception path. Crashes of the consumer, expiring keys, repeated
      sends, crashes of handlers that have not stored anything and invocations of the retry handler are allowed. */
  ghost predicate Calm(s: System, move: Move)
  {
    match move
    case Command(a) => (a.Begin? ==> Idle(s.write, a.orderId)) && !PublishFails(s.write, WriteSide.Step(s.write, a))
    case Consume(a) => NoError(a)
    case Retry(_) => true
  }

  // ---------------------------------------------------------------- what is on the topic

  /** One order's events on the topic, repeats dropped. */
  ghost function Published(topic: Topic, oid: Id): seq<Event>
    requires topic != []
  {
    var p := PartitionOf(oid, |topic|);
    OrderLog(Seen(topic[p], |topic[p]|), oid)
  }

  /** Everything stored is published, except possibly the last event, which a handler is still publishing. */
  ghost predicate PublishedInv(w: WriteSide.State, oid: Id)
    requires w.topic != []
  {
    var stored, published := OrderLog(w.docs, oid), Published(w.topic, oid);
    || published == stored
    || (exists h :: h in w.handlers && w.handlers[h].Publishing? && w.handlers[h].event.orderId == oid &&
          stored == published + [w.handlers[h].event])
  }

  ghost predicate HandlerInv(w: WriteSide.State, hd: Handler)
  {
    hd.Publishing? ==>
      && OrderLog(w.docs, hd.event.orderId) != []
      && OrderLog(w.docs, hd.event.orderId)[|OrderLog(w.docs, hd.event.orderId)| - 1] == hd.event
      && (hd.sent ==> OnTopic(w.topic, hd.event))
  }

  ghost predicate OneAtATime(w: WriteSide.State)
  {
    forall h, k ::
      (h in w.handlers && k in w.handlers && Active(w.handlers[h]) && Active(w.handlers[k]) &&
       w.handlers[h].event.orderId == w.handlers[k].event.orderId) ==> h == k
  }

  ghost predicate KeysInv(w: WriteSide.State)
  {
    && (forall e :: e in w.docs && e.eventId in w.publishedKeys ==> OnTopic(w.topic, e))
    && (forall id :: id in w.publishedKeys ==> HasId(w.docs, id))
  }

  /** A repeated entry is the last event seen of its order. */
  ghost predicate RepeatsLast(ms: seq<Message>, k: nat)
    requires k < |ms|
  {
    HasId(EventsIn(ms[..k]), ms[k].event.eventId) ==>
      var seen := OrderLog(Seen(ms, k), ms[k].event.orderId);
      seen != [] && seen[|seen| - 1] == ms[k].event
  }

  ghost predicate CopiesTogether(topic: Topic)
  {
    forall p, k :: 0 <= p < |topic| && 0 <= k < |topic[p]| ==> RepeatsLast(topic[p], k)
  }

  ghost predicate CalmWrite(w: WriteSide.State)
  {
    && w.topic != [] && WriteSide.Inv(w) && OneAtATime(w) && KeysInv(w) && CopiesTogether(w.topic)
    && (forall h :: h in w.handlers ==> HandlerInv(w, w.handlers[h]))
    && (forall oid :: PublishedInv(w, oid))
  }

  /** The write side keeps the topic well-formed. */
  lemma {:induction false} WriteTopicIsGood(w: WriteSide.State)
    requires w.topic != [] && WriteSide.Inv(w)
    ensures GoodTopic(w.topic)
  {
    forall p, i, e, q, j, f | Holds(w.topic, p, i, e) && Holds(w.topic, q, j, f) && e.eventId == f.eventId
      ensures e == f
    {
      assert e in w.docs && f in w.docs;
    }
  }

  // ---------------------------------------------------------------- sending

  /** A copy of an event that is already there adds nothing; a new event is added to its own order only. */
  lemma {:induction false} PublishedPut(topic: Topic, e: Event, oid: Id)
    requires GoodTopic(topic)
    requires forall p, i, f :: Holds(topic, p, i, f) && f.eventId == e.eventId ==> f == e
    ensures var topic' := Put(topic, PartitionOf(e.orderId, |topic|), Message(e, 0));
            Published(topic', oid) ==
              if oid != e.orderId || OnTopic(topic, e) then Published(topic, oid) else Published(topic, oid) + [e]
  {
    var p := PartitionOf(e.orderId, |topic|);
    var ms := topic[p];
    var topic' := Put(topic, p, Message(e, 0));
    assert topic'[p] == ms + [Message(e, 0)];
    if PartitionOf(oid, |topic|) == p {
      assert topic'[p][..|ms| + 1] == ms + [Message(e, 0)] && ms[..|ms|] == ms;
      EventsInSnoc(ms, Message(e, 0));
      FirstCopiesSnoc(EventsIn(ms), e);
      OrderLogSnoc(FirstCopies(EventsIn(ms)), e, oid);
      RepeatIsOnTopic(topic, e);
    } else {
      assert oid != e.orderId;
    }
  }

  lemma {:induction false} RepeatIsOnTopic(topic: Topic, e: Event)
    requires GoodTopic(topic)
    requires forall p, i, f :: Holds(topic, p, i, f) && f.eventId == e.eventId ==> f == e
    ensures HasId(EventsIn(topic[PartitionOf(e.orderId, |topic|)]), e.eventId) <==> OnTopic(topic, e)
  {
    var p := PartitionOf(e.orderId, |topic|);
    if HasId(EventsIn(topic[p]), e.eventId) {
      var i :| 0 <= i < |topic[p]| && EventsIn(topic[p])[i].eventId == e.eventId;
      assert Holds(topic, p, i, topic[p][i].event);
    }
    if OnTopic(topic, e) {
      var q, i :| Holds(topic, q, i, e);
      assert EventsIn(topic[p])[i].eventId == e.eventId;
    }
  }

  /** On the topic means among the order's published events. */
  lemma {:induction false} OnTopicIsPublished(topic: Topic, e: Event)
    requires GoodTopic(topic)
    ensures OnTopic(topic, e) <==> e in Published(topic, e.orderId)
  {
    var p := PartitionOf(e.orderId, |topic|);
    var ms := topic[p];
    assert ms[..|ms|] == ms;
    assert IdsIdentify(EventsIn(ms)) by {
      forall i, j | 0 <= i < |ms| && 0 <= j < |ms| && ms[i].event.eventId == ms[j].event.eventId
        ensures ms[i].event == ms[j].event
      {
        assert Holds(topic, p, i, ms[i].event) && Holds(topic, p, j, ms[j].event);
      }
    }
    FirstCopiesElements(EventsIn(ms), e);
    OrderLogElements(FirstCopies(EventsIn(ms)), e.orderId, e);
    if OnTopic(topic, e) {
      var q, i :| Holds(topic, q, i, e);
      assert EventsIn(ms)[i] == e;
    }
    if e in EventsIn(ms) {
      var i :| 0 <= i < |ms| && EventsIn(ms)[i] == e;
      assert Holds(topic, p, i, e);
    }
  }

  lemma {:induction false} OnTopicStays(topic: Topic, p: nat, m: Message, e: Event)
    requires p < |topic| && OnTopic(topic, e)
    ensures OnTopic(Put(topic, p, m), e)
  {
    var q, i :| Holds(topic, q, i, e);
    HoldsPut(topic, p, m, q, i, e);
  }

  // ---------------------------------------------------------------- calm steps of the write side

  /** Nothing is lost from view while stored events, topic and publishing handlers stay. */
  lemma {:induction false} PublishedStays(w: WriteSide.State, w': WriteSide.State, oid: Id)
    requires w.topic != [] && w'.docs == w.docs && w'.topic == w.topic && PublishedInv(w, oid)
    requires forall k :: k in w.handlers && w.handlers[k].Publishing? && w.handlers[k].event.orderId == oid ==>
               k in w'.handlers && w'.handlers[k].Publishing? && w'.handlers[k].event == w.handlers[k].event
    ensures PublishedInv(w', oid)
  {
    if Published(w.topic, oid) != OrderLog(w.docs, oid) {
      var h :| h in w.handlers && w.handlers[h].Publishing? && w.handlers[h].event.orderId == oid &&
        OrderLog(w.docs, oid) == Published(w.topic, oid) + [w.handlers[h].event];
      assert h in w'.handlers;
    }
  }

  /** Once its event is on the topic, a handler's order is published completely. */
  lemma {:induction false} FullyPublished(w: WriteSide.State, h: nat)
    requires CalmWrite(w) && h in w.handlers && w.handlers[h].Publishing? && OnTopic(w.topic, w.handlers[h].event)
    ensures Published(w.topic, w.handlers[h].event.orderId) == OrderLog(w.docs, w.handlers[h].event.orderId)
  {
    var e := w.handlers[h].event;
    var stored, published := OrderLog(w.docs, e.orderId), Published(w.topic, e.orderId);
    assert PublishedInv(w, e.orderId);
    if published != stored {
      var k :| k in w.handlers && w.handlers[k].Publishing? && w.handlers[k].event.orderId == e.orderId &&
        stored == published + [w.handlers[k].event];
      assert k == h;
      WriteTopicIsGood(w);
      OnTopicIsPublished(w.topic, e);
      OrderLogDistinct(w.docs, e.orderId);
    }
  }

  lemma {:induction false} NotYetPublished(w: WriteSide.State, h: nat)
    requires CalmWrite(w) && h in w.handlers && w.handlers[h].Publishing? && !OnTopic(w.topic, w.handlers[h].event)
    ensures OrderLog(w.docs, w.handlers[h].event.orderId) ==
            Published(w.topic, w.handlers[h].event.orderId) + [w.handlers[h].event]
  {
    var e := w.handlers[h].event;
    var stored, published := OrderLog(w.docs, e.orderId), Published(w.topic, e.orderId);
    assert HandlerInv(w, w.handlers[h]);
    WriteTopicIsGood(w);
    OnTopicIsPublished(w.topic, e);
    assert stored[|stored| - 1] == e;
    assert published != stored;
    assert PublishedInv(w, e.orderId);
  }

  lemma {:induction false} BeginIsCalm(w: WriteSide.State, a: WriteSide.Action)
    requires CalmWrite(w) && a.Begin? && Idle(w, a.orderId)
    ensures CalmWrite(WriteSide.Step(w, a))
  {
    WriteSide.StepKeepsInv(w, a);
    if a.h !in w.handlers && ValidRequest(a.command) {
      var loaded := Loaded(w.docs, a.orderId, a.eventId, a.command, a.charged);
      assert loaded.Ready? ==> loaded.event.orderId == a.orderId;
      LoadedIsCalm(w, a.h, a.orderId, loaded);
    }
  }

  lemma {:induction false} LoadedIsCalm(w: WriteSide.State, h: nat, oid: Id, loaded: Handler)
    requires CalmWrite(w) && h !in w.handlers && Idle(w, oid) && WriteSide.Inv(WithHandler(w, h, loaded))
    requires loaded.Failed? || (loaded.Ready? && loaded.event.orderId == oid)
    ensures CalmWrite(WithHandler(w, h, loaded))
  {
    var w' := WithHandler(w, h, loaded);
    forall o ensures PublishedInv(w', o) {
      PublishedStays(w, w', o);
    }
    forall k | k in w'.handlers ensures HandlerInv(w', w'.handlers[k]) {
      assert k in w.handlers ==> HandlerInv(w, w.handlers[k]);
    }
  }

  lemma {:induction false} KillIsCalm(w: WriteSide.State, a: WriteSide.Action)
    requires CalmWrite(w) && (a.Kill? || a.ForgetKey?) && !PublishFails(w, WriteSide.Step(w, a))
    ensures CalmWrite(WriteSide.Step(w, a))
  {
    var w' := WriteSide.Step(w, a);
    WriteSide.StepKeepsInv(w, a);
    assert a.Kill? && a.h in w.handlers ==> !w.handlers[a.h].Publishing? by {
      if a.Kill? && a.h in w.handlers {
        assert w'.handlers[a.h].Failed?;
      }
    }
    forall oid ensures PublishedInv(w', oid) {
      PublishedStays(w, w', oid);
    }
    forall k | k in w'.handlers ensures HandlerInv(w', w'.handlers[k]) {
      assert HandlerInv(w, w.handlers[k]);
    }
  }

  lemma {:induction false} AppendIsCalm(w: WriteSide.State, h: nat, outcome: Outcome)
    requires CalmWrite(w) && !PublishFails(w, WriteSide.Step(w, WriteSide.Append(h, outcome)))
    ensures CalmWrite(WriteSide.Step(w, WriteSide.Append(h, outcome)))
  {
    var w' := WriteSide.Step(w, WriteSide.Append(h, outcome));
    WriteSide.StepKeepsInv(w, WriteSide.Append(h, outcome));
    if h in w.handlers && w.handlers[h].Ready? {
      if outcome == Raised || Conflict(w.docs, w.handlers[h].event) {
        forall oid ensures PublishedInv(w', oid) {
          PublishedStays(w, w', oid);
        }
        forall k | k in w'.handlers ensures HandlerInv(w', w'.handlers[k]) {
          assert HandlerInv(w, w.handlers[k]);
        }
      } else {
        assert w'.docs != w.docs && !w'.handlers[h].Failed?;
        StoreIsCalm(w, h, w');
      }
    }
  }

  lemma {:induction false} StoreIsCalm(w: WriteSide.State, h: nat, w': WriteSide.State)
    requires CalmWrite(w) && h in w.handlers && w.handlers[h].Ready? && !Conflict(w.docs, w.handlers[h].event)
    requires w' == WriteSide.Step(w, WriteSide.Append(h, Ok)) && WriteSide.Inv(w')
    ensures CalmWrite(w')
  {
    var e := w.handlers[h].event;
    forall oid ensures PublishedInv(w', oid) {
      assert PublishedInv(w, oid);
      StorePublished(w, h, w', oid);
    }
    forall k | k in w'.handlers ensures HandlerInv(w', w'.handlers[k]) {
      assert HandlerInv(w, w.handlers[k]);
      StoreKeepsHandler(w, h, w', k);
    }
    StoreKeepsKeys(w, e, w');
  }

  lemma {:induction false} StorePublished(w: WriteSide.State, h: nat, w': WriteSide.State, oid: Id)
    requires w.topic != [] && OneAtATime(w) && PublishedInv(w, oid) && h in w.handlers && w.handlers[h].Ready?
    requires w'.docs == w.docs + [w.handlers[h].event] && w'.topic == w.topic
    requires w'.handlers == w.handlers[h := Publishing(w.handlers[h].event, 0, false)]
    ensures PublishedInv(w', oid)
  {
    var e := w.handlers[h].event;
    OrderLogSnoc(w.docs, e, oid);
    if oid == e.orderId {
      assert Published(w.topic, oid) == OrderLog(w.docs, oid);
      assert w'.handlers[h].Publishing?;
    } else if Published(w.topic, oid) != OrderLog(w.docs, oid) {
      var k :| k in w.handlers && w.handlers[k].Publishing? && w.handlers[k].event.orderId == oid &&
        OrderLog(w.docs, oid) == Published(w.topic, oid) + [w.handlers[k].event];
      assert w'.handlers[k] == w.handlers[k];
    }
  }

  lemma {:induction false} StoreKeepsHandler(w: WriteSide.State, h: nat, w': WriteSide.State, k: nat)
    requires OneAtATime(w) && h in w.handlers && w.handlers[h].Ready? && k in w.handlers && HandlerInv(w, w.handlers[k])
    requires w'.docs == w.docs + [w.handlers[h].event] && w'.topic == w.topic
    requires w'.handlers == w.handlers[h := Publishing(w.handlers[h].event, 0, false)]
    ensures HandlerInv(w', w'.handlers[k])
  {
    if w'.handlers[k].Publishing? {
      OrderLogSnoc(w.docs, w.handlers[h].event, w'.handlers[k].event.orderId);
    }
  }

  lemma {:induction false} StoreKeepsKeys(w: WriteSide.State, e: Event, w': WriteSide.State)
    requires KeysInv(w) && !Conflict(w.docs, e)
    requires w'.docs == w.docs + [e] && w'.topic == w.topic && w'.publishedKeys == w.publishedKeys
    ensures KeysInv(w')
  {
    assert e.eventId !in w.publishedKeys;
    forall id | id in w'.publishedKeys ensures HasId(w'.docs, id) {
      var i :| 0 <= i < |w.docs| && w.docs[i].eventId == id;
      assert w'.docs[i].eventId == id;
    }
  }

  /** Sending another copy, acknowledged or not. */
  lemma {:induction false} CopySent(w: WriteSide.State, h: nat, w': WriteSide.State)
    requires CalmWrite(w) && h in w.handlers && w.handlers[h].Publishing? && WriteSide.Inv(w')
    requires w'.docs == w.docs && w'.publishedKeys == w.publishedKeys
    requires w'.topic ==
        Put(w.topic, PartitionOf(w.handlers[h].event.orderId, |w.topic|), Message(w.handlers[h].event, 0))
    requires h in w'.handlers && w'.handlers == w.handlers[h := w'.handlers[h]]
    requires w'.handlers[h].Publishing? && w'.handlers[h].event == w.handlers[h].event
    ensures CalmWrite(w')
  {
    var e, p := w.handlers[h].event, PartitionOf(w.handlers[h].event.orderId, |w.topic|);
    forall f | OnTopic(w.topic, f) ensures OnTopic(w'.topic, f) {
      OnTopicStays(w.topic, p, Message(e, 0), f);
    }
    assert Holds(w'.topic, p, |w.topic[p]|, e);
    forall k | k in w'.handlers ensures HandlerInv(w', w'.handlers[k]) {
      assert HandlerInv(w, w.handlers[k]);
    }
    forall oid ensures PublishedInv(w', oid) {
      CopyPublished(w, h, w', oid);
    }
    CopiesStayTogether(w, h, w');
  }

  /** A copy is sent only while its event is the last stored, and so the last published, of its order. */
  lemma {:induction false} CopyRepeatsLast(w: WriteSide.State, h: nat)
    requires CalmWrite(w) && h in w.handlers && w.handlers[h].Publishing?
    ensures var e := w.handlers[h].event;
            var ms := w.topic[PartitionOf(e.orderId, |w.topic|)];
            RepeatsLast(ms + [Message(e, 0)], |ms|)
  {
    var e := w.handlers[h].event;
    var ms := w.topic[PartitionOf(e.orderId, |w.topic|)];
    assert (ms + [Message(e, 0)])[..|ms|] == ms && ms[..|ms|] == ms;
    if HasId(EventsIn(ms), e.eventId) {
      WriteTopicIsGood(w);
      assert HandlerOk(w.docs, w.handlers[h]);
      forall p, i, f | Holds(w.topic, p, i, f) && f.eventId == e.eventId ensures f == e {
        assert f in w.docs && e in w.docs;
      }
      RepeatIsOnTopic(w.topic, e);
      FullyPublished(w, h);
      assert HandlerInv(w, w.handlers[h]);
    }
  }

  lemma {:induction false} CopiesStayTogether(w: WriteSide.State, h: nat, w': WriteSide.State)
    requires CalmWrite(w) && h in w.handlers && w.handlers[h].Publishing?
    requires w'.topic ==
        Put(w.topic, PartitionOf(w.handlers[h].event.orderId, |w.topic|), Message(w.handlers[h].event, 0))
    ensures CopiesTogether(w'.topic)
  {
    var p := PartitionOf(w.handlers[h].event.orderId, |w.topic|);
    CopyRepeatsLast(w, h);
    forall q, k | 0 <= q < |w'.topic| && 0 <= k < |w'.topic[q]| ensures RepeatsLast(w'.topic[q], k) {
      if k < |w.topic[q]| {
        assert RepeatsLast(w.topic[q], k);
        assert w'.topic[q][..k] == w.topic[q][..k] && w'.topic[q][k] == w.topic[q][k];
      }
    }
  }

  lemma {:induction false} CopyPublished(w: WriteSide.State, h: nat, w': WriteSide.State, oid: Id)
    requires CalmWrite(w) && h in w.handlers && w.handlers[h].Publishing? && w'.docs == w.docs
    requires w'.topic ==
        Put(w.topic, PartitionOf(w.handlers[h].event.orderId, |w.topic|), Message(w.handlers[h].event, 0))
    requires h in w'.handlers && w'.handlers == w.handlers[h := w'.handlers[h]]
    ensures PublishedInv(w', oid)
  {
    var e := w.handlers[h].event;
    WriteTopicIsGood(w);
    assert HandlerOk(w.docs, w.handlers[h]);
    forall p, i, f | Holds(w.topic, p, i, f) && f.eventId == e.eventId ensures f == e {
      assert f in w.docs && e in w.docs;
    }
    PublishedPut(w.topic, e, oid);
    if oid == e.orderId {
      if OnTopic(w.topic, e) {
        FullyPublished(w, h);
      } else {
        NotYetPublished(w, h);
      }
    } else {
      assert PublishedInv(w, oid);
      if Published(w.topic, oid) != OrderLog(w.docs, oid) {
        var k :| k in w.handlers && w.handlers[k].Publishing? && w.handlers[k].event.orderId == oid &&
          OrderLog(w.docs, oid) == Published(w.topic, oid) + [w.handlers[k].event];
        assert k in w'.handlers && w'.handlers[k] == w.handlers[k];
      }
    }
  }

  /** A handler that stays with its event, or finishes with its event on the topic. */
  lemma {:induction false} HandlerMoves(w: WriteSide.State, h: nat, w': WriteSide.State)
    requires CalmWrite(w) && h in w.handlers && w.handlers[h].Publishing? && WriteSide.Inv(w')
    requires w'.docs == w.docs && w'.topic == w.topic && KeysInv(w')
    requires h in w'.handlers && w'.handlers == w.handlers[h := w'.handlers[h]]
    requires (w'.handlers[h].Publishing? && !w'.handlers[h].sent && w'.handlers[h].event == w.handlers[h].event) ||
             (w'.handlers[h].Responded? && OnTopic(w.topic, w.handlers[h].event))
    ensures CalmWrite(w')
  {
    forall k | k in w'.handlers ensures HandlerInv(w', w'.handlers[k]) {
      assert HandlerInv(w, w.handlers[k]);
    }
    forall oid ensures PublishedInv(w', oid) {
      assert PublishedInv(w, oid);
      if w'.handlers[h].Responded? && oid == w.handlers[h].event.orderId {
        FullyPublished(w, h);
      } else {
        PublishedStays(w, w', oid);
      }
    }
  }

  lemma {:induction false} SendIsCalm(w: WriteSide.State, h: nat, outcome: Outcome)
    requires CalmWrite(w) && !PublishFails(w, WriteSide.Step(w, WriteSide.Send(h, outcome)))
    ensures CalmWrite(WriteSide.Step(w, WriteSide.Send(h, outcome)))
  {
    var w' := WriteSide.Step(w, WriteSide.Send(h, outcome));
    WriteSide.StepKeepsInv(w, WriteSide.Send(h, outcome));
    if h in w.handlers && w.handlers[h].Publishing? && !w.handlers[h].sent {
      assert HandlerOk(w.docs, w.handlers[h]);
      assert !w'.handlers[h].Failed?;
      if w.handlers[h].event.eventId in w.publishedKeys || outcome == Raised {
        HandlerMoves(w, h, w');
      } else {
        CopySent(w, h, w');
      }
    }
  }

  lemma {:induction false} SetKeyIsCalm(w: WriteSide.State, h: nat, outcome: Outcome)
    requires CalmWrite(w) && !PublishFails(w, WriteSide.Step(w, WriteSide.SetKey(h, outcome)))
    ensures CalmWrite(WriteSide.Step(w, WriteSide.SetKey(h, outcome)))
  {
    var w' := WriteSide.Step(w, WriteSide.SetKey(h, outcome));
    WriteSide.StepKeepsInv(w, WriteSide.SetKey(h, outcome));
    if h in w.handlers && w.handlers[h].Publishing? && w.handlers[h].sent {
      assert HandlerInv(w, w.handlers[h]);
      assert HandlerOk(w.docs, w.handlers[h]);
      assert !w'.handlers[h].Failed?;
      KeySet(w, w.handlers[h].event, w');
      HandlerMoves(w, h, w');
    }
  }

  lemma {:induction false} KeySet(w: WriteSide.State, e: Event, w': WriteSide.State)
    requires KeysInv(w) && DistinctIds(w.docs) && e in w.docs && OnTopic(w.topic, e)
    requires w'.docs == w.docs && w'.topic == w.topic
    requires w'.publishedKeys == w.publishedKeys || w'.publishedKeys == w.publishedKeys + {e.eventId}
    ensures KeysInv(w')
  {
    var i :| 0 <= i < |w.docs| && w.docs[i] == e;
    assert HasId(w.docs, e.eventId);
  }

  lemma {:induction false} WriteStaysCalm(w: WriteSide.State, a: WriteSide.Action)
    requires CalmWrite(w) && (a.Begin? ==> Idle(w, a.orderId)) && !PublishFails(w, WriteSide.Step(w, a))
    ensures CalmWrite(WriteSide.Step(w, a))
  {
    match a {
      case Begin(_, _, _, _, _) => BeginIsCalm(w, a);
      case Append(h, outcome) => AppendIsCalm(w, h, outcome);
      case Send(h, outcome) => SendIsCalm(w, h, outcome);
      case SetKey(h, outcome) => SetKeyIsCalm(w, h, outcome);
      case Kill(_) => KillIsCalm(w, a);
      case ForgetKey(_) => KillIsCalm(w, a);
    }
  }

  // ---------------------------------------------------------------- the consumer on a calm topic

  ghost predicate CalmSystem(s: System)
  {
    CalmWrite(s.write) && CutInv(s.write.topic, s.c) && s.c.dlq == map[]
  }

  /** Reading further into a partition only appends to an order's events. */
  lemma {:induction false} SeenGrows(ms: seq<Message>, k: nat, l: nat, oid: Id)
    requires k <= l <= |ms|
    ensures OrderLog(Seen(ms, k), oid) <= OrderLog(Seen(ms, l), oid)
    decreases l - k
  {
    if k < l {
      SeenGrows(ms, k, l - 1, oid);
      SeenGrowsByOne(ms, l - 1, oid);
    }
  }

  lemma {:induction false} SeenGrowsByOne(ms: seq<Message>, k: nat, oid: Id)
    requires k < |ms|
    ensures OrderLog(Seen(ms, k), oid) <= OrderLog(Seen(ms, k + 1), oid)
  {
    assert ms[..k + 1] == ms[..k] + [ms[k]];
    EventsInSnoc(ms[..k], ms[k]);
    FirstCopiesSnoc(EventsIn(ms[..k]), ms[k].event);
    OrderLogSnoc(Seen(ms, k), ms[k].event, oid);
  }

  lemma {:induction false} LawfulPrefix(oid: Id, es: seq<Event>, a: seq<Event>)
    requires Lawful(oid, es) && a <= es
    ensures Lawful(oid, a)
  {
    if |a| < |es| {
      LawfulAt(oid, es, |a|);
      assert es[..|a|] == a;
    } else {
      assert a == es;
    }
  }

  /** What the consumer has seen of an order is a lawful log. */
  lemma {:induction false} SeenIsLawful(w: WriteSide.State, p: nat, k: nat, oid: Id)
    requires CalmWrite(w) && p < |w.topic| && p == PartitionOf(oid, |w.topic|) && k <= |w.topic[p]|
    ensures Lawful(oid, OrderLog(Seen(w.topic[p], k), oid))
  {
    SeenGrows(w.topic[p], k, |w.topic[p]|, oid);
    assert PublishedInv(w, oid);
    assert Published(w.topic, oid) <= OrderLog(w.docs, oid);
    LawfulPrefix(oid, OrderLog(w.docs, oid), OrderLog(Seen(w.topic[p], k), oid));
  }

  /** The next new event of an order that is not its CREATED finds the order row. */
  lemma {:induction false} NewEventFindsRow(w: WriteSide.State, p: nat, k: nat)
    requires CalmWrite(w) && p < |w.topic| && k < |w.topic[p]|
    requires !w.topic[p][k].event.payload.OrderCreated?
    requires !HasId(EventsIn(w.topic[p][..k]), w.topic[p][k].event.eventId)
    ensures Image(w.topic[p], k, w.topic[p][k].event.orderId).row.Some?
  {
    var ms, e := w.topic[p], w.topic[p][k].event;
    WriteTopicIsGood(w);
    assert Holds(w.topic, p, k, e);
    SeenIsLawful(w, p, k, e.orderId);
    SeenIsLawful(w, p, k + 1, e.orderId);
    SeenNext(ms, k);
    RowBefore(OrderLog(Seen(ms, k), e.orderId), e);
  }

  /** What is seen of an order once a new event of it is delivered. */
  lemma {:induction false} SeenNext(ms: seq<Message>, k: nat)
    requires k < |ms| && !HasId(EventsIn(ms[..k]), ms[k].event.eventId)
    ensures var e := ms[k].event; OrderLog(Seen(ms, k + 1), e.orderId) == OrderLog(Seen(ms, k), e.orderId) + [e]
  {
    var e := ms[k].event;
    assert ms[..k + 1] == ms[..k] + [ms[k]];
    EventsInSnoc(ms[..k], ms[k]);
    FirstCopiesSnoc(EventsIn(ms[..k]), e);
    OrderLogSnoc(Seen(ms, k), e, e.orderId);
  }

  /** An event that may follow `seen` and is not a CREATED finds the row that `seen` projects to. */
  lemma {:induction false} RowBefore(seen: seq<Event>, e: Event)
    requires Lawful(e.orderId, seen) && Lawful(e.orderId, seen + [e]) && !e.payload.OrderCreated?
    ensures ProjectLog(ABSENT, seen).row.Some?
  {
    LawfulAt(e.orderId, seen + [e], |seen|);
    assert (seen + [e])[..|seen|] == seen;
    LawfulInOrder(e.orderId, seen);
    FoldsAgree(e.orderId, seen);
  }

  /** An order of which something was seen has a row. */
  lemma {:induction false} RepeatFindsRow(w: WriteSide.State, p: nat, k: nat)
    requires CalmWrite(w) && p < |w.topic| && k < |w.topic[p]|
    requires HasId(EventsIn(w.topic[p][..k]), w.topic[p][k].event.eventId)
    ensures Image(w.topic[p], k, w.topic[p][k].event.orderId).row.Some?
  {
    var e := w.topic[p][k].event;
    WriteTopicIsGood(w);
    assert Holds(w.topic, p, k, e) && RepeatsLast(w.topic[p], k);
    var seen := OrderLog(Seen(w.topic[p], k), e.orderId);
    SeenIsLawful(w, p, k, e.orderId);
    LawfulInOrder(e.orderId, seen);
    FoldsAgree(e.orderId, seen);
  }

  lemma {:induction false} LineFindsRow(w: WriteSide.State, p: nat, k: nat)
    requires CalmWrite(w) && p < |w.topic| && k < |w.topic[p]| && w.topic[p][k].event.payload.ItemAdded?
    ensures var oid := w.topic[p][k].event.orderId;
            Image(w.topic[p], k, oid).row.Some? && Image(w.topic[p], k + 1, oid).row.Some?
  {
    if HasId(EventsIn(w.topic[p][..k]), w.topic[p][k].event.eventId) {
      RepeatFindsRow(w, p, k);
    } else {
      NewEventFindsRow(w, p, k);
    }
    ImageNext(w.topic[p], k, w.topic[p][k].event.orderId);
  }

  lemma {:induction false} CutHasRow(topic: Topic, c: Consumer.State, p: nat, k: nat, e: Event)
    requires GoodTopic(topic) && HasCommitted(topic, c) && Holds(topic, p, k, e) && c.committed[p] == k
    requires PartitionInv(topic, c, p)
    requires Image(topic[p], k, e.orderId).row.Some? && Image(topic[p], k + 1, e.orderId).row.Some?
    ensures e.orderId in c.tables.orders
  {
    assert ViewOf(c.tables, e.orderId).row.Some?;
  }

  /** The foreign key never fails. */
  lemma {:induction false} ProjectionSucceeds(s: System)
    requires CalmSystem(s) && Consumer.IsAt(s.c, Consumer.AtProject)
    ensures Project(s.c.tables, s.c.phase.m.event).Some?
  {
    var p, k, e := s.c.phase.p, s.c.phase.off, s.c.phase.m.event;
    if e.payload.ItemAdded? {
      LineFindsRow(s.write, p, k);
      WriteTopicIsGood(s.write);
      CutHasRow(s.write.topic, s.c, p, k, e);
    }
  }

  /** A repeat whose key has expired is projected again, onto rows it has just written. */
  lemma {:induction false} RepeatMovesCut(topic: Topic, t: Tables, p: nat, k: nat)
    requires GoodTopic(topic) && p < |topic| && k < |topic[p]| && RepeatsLast(topic[p], k)
    requires HasId(EventsIn(topic[p][..k]), topic[p][k].event.eventId) && AtCut(topic, t, p, k + 1)
    ensures AtCut(topic, Projected(t, topic[p][k].event), p, k + 1)
  {
    var e := topic[p][k].event;
    assert Holds(topic, p, k, e);
    forall oid | PartitionOf(oid, |topic|) == p ensures ViewOf(Projected(t, e), oid) == Image(topic[p], k + 1, oid) {
      ImageNext(topic[p], k, oid);
      ProjectIsLocal(t, e, oid);
      if oid == e.orderId {
        LastIsAbsorbed(OrderLog(Seen(topic[p], k), oid));
      }
    }
  }

  lemma {:induction false} ProjectionAdvances(s: System)
    requires CalmSystem(s) && Consumer.IsAt(s.c, Consumer.AtProject)
    ensures Advances(s.write.topic, s.c)
  {
    WriteTopicIsGood(s.write);
    EntryAdvances(s.write.topic, s.c);
  }

  lemma {:induction false} EntryAdvances(topic: Topic, c: Consumer.State)
    requires GoodTopic(topic) && CopiesTogether(topic) && CutInv(topic, c) && Consumer.IsAt(c, Consumer.AtProject)
    ensures Advances(topic, c)
  {
    var p, k := c.phase.p, c.phase.off;
    assert c.committed[p] == k && topic[p][k] == c.phase.m;
    if HasId(EventsIn(topic[p][..k]), c.phase.m.event.eventId) {
      assert RepeatsLast(topic[p], k);
      RepeatAdvances(topic, c, p, k);
    } else {
      NewAdvances(topic, c);
    }
  }

  lemma {:induction false} RepeatAdvances(topic: Topic, c: Consumer.State, p: nat, k: nat)
    requires GoodTopic(topic) && CutInv(topic, c) && p < |topic| && c.committed[p] == k < |topic[p]|
    requires RepeatsLast(topic[p], k) && HasId(EventsIn(topic[p][..k]), topic[p][k].event.eventId)
    ensures AtCut(topic, Projected(c.tables, topic[p][k].event), p, k + 1)
  {
    assert PartitionInv(topic, c, p);
    RepeatKeepsCut(topic, c.tables, p, k);
    RepeatMovesCut(topic, c.tables, p, k);
  }

  lemma TopicChange(w: WriteSide.State, a: WriteSide.Action)
    requires w.topic != []
    ensures var w' := WriteSide.Step(w, a);
            w'.topic == w.topic || exists e: Event ::
                w'.topic == Put(w.topic, PartitionOf(e.orderId, |w.topic|), Message(e, 0))
  {
  }

  /** With nothing in the queue the retry handler does nothing. */
  lemma {:induction false} EmptyQueueStays(s: System, step: RetryCircuit.Move)
    requires s.c.dlq == map[]
    ensures Next(s, Retry(step)) == s
  {
    assert forall id: nat :: s.c.dlq - {id} == s.c.dlq;
  }

  lemma {:induction false} CalmStep(s: System, move: Move)
    requires CalmSystem(s) && Calm(s, move)
    ensures CalmSystem(Next(s, move))
  {
    match move {
      case Command(a) =>
        var w' := WriteSide.Step(s.write, a);
        WriteStaysCalm(s.write, a);
        WriteTopicIsGood(w');
        TopicChange(s.write, a);
        if w'.topic != s.write.topic {
          var e: Event :| w'.topic == Put(s.write.topic, PartitionOf(e.orderId, |s.write.topic|), Message(e, 0));
          TopicGrowthKeepsCuts(s.write.topic, s.c, PartitionOf(e.orderId, |s.write.topic|), Message(e, 0));
        }
      case Consume(a) =>
        WriteTopicIsGood(s.write);
        if Consumer.IsAt(s.c, Consumer.AtProject) {
          ProjectionSucceeds(s);
          ProjectionAdvances(s);
        }
        CrashSafety.StepKeepsCuts(s.write.topic, s.c, a);
      case Retry(step) => EmptyQueueStays(s, step);
    }
  }

  ghost predicate CalmRun(partitions: nat, moves: seq<Move>)
  {
    forall i :: 0 <= i < |moves| ==> Calm(Pipeline.Run(partitions, moves[..i]), moves[i])
  }

  lemma {:induction false} CalmInit(partitions: nat, moves: seq<Move>)
    requires moves != [] && CalmRun(partitions, moves)
    ensures CalmRun(partitions, moves[..|moves| - 1])
  {
    var init := moves[..|moves| - 1];
    forall i | 0 <= i < |init| ensures Calm(Pipeline.Run(partitions, init[..i]), init[i]) {
      assert init[..i] == moves[..i];
    }
  }

  lemma {:induction false} CalmRunKeepsInv(partitions: nat, moves: seq<Move>)
    requires partitions > 0 && CalmRun(partitions, moves)
    ensures CalmSystem(Pipeline.Run(partitions, moves))
  {
    if moves == [] {
      EmptyTopicIsGood(partitions);
      CalmStart(partitions);
    } else {
      var n := |moves| - 1;
      CalmInit(partitions, moves);
      CalmRunKeepsInv(partitions, moves[..n]);
      CalmStep(Pipeline.Run(partitions, moves[..n]), moves[n]);
    }
  }

  lemma {:induction false} CalmStart(partitions: nat)
    requires partitions > 0
    ensures CalmWrite(WriteSide.Start(partitions))
  {
    var w := WriteSide.Start(partitions);
    forall oid ensures PublishedInv(w, oid) {
      var p := PartitionOf(oid, partitions);
      assert EventsIn(w.topic[p][..0]) == [];
    }
  }

  // ---------------------------------------------------------------- main result

  /** Nothing of the order is still to be published, and its partition is drained. */
  ghost predicate Drained(s: System, oid: Id)
  {
    && s.write.topic != [] && |s.c.committed| == |s.write.topic|
    && (forall h :: h in s.write.handlers && s.write.handlers[h].Publishing? ==>
          s.write.handlers[h].event.orderId != oid)
    && s.c.committed[PartitionOf(oid, |s.write.topic|)] == |s.write.topic[PartitionOf(oid, |s.write.topic|)]|
  }

  lemma {:induction false} DistinctRows(items: seq<Item>)
    requires DistinctProducts(items)
    ensures forall k :: 0 <= k < |items| ==> Lookup(Collapse(items), items[k].productId) == Some(RowOf(items[k]))
  {
    forall k | 0 <= k < |items| ensures Lookup(Collapse(items), items[k].productId) == Some(RowOf(items[k])) {
      CollapsedRow(items, items[k].productId, k, k);
    }
  }

  /** After every calm run, once an order is drained, its row has the status, version, customer, payment and tracking of
      the aggregate rebuilt from the stored events; its item rows are the aggregate's items, collapsed by product; and
      its total is the aggregate's exactly when no product was added twice. An order without events has no rows. */
  lemma {:induction false} ReadModelAgreesWithEventStore(partitions: nat, moves: seq<Move>, oid: Id)
    requires partitions > 0 && CalmRun(partitions, moves) && Drained(Pipeline.Run(partitions, moves), oid)
    ensures var s := Pipeline.Run(partitions, moves);
            var rebuilt, v := RebuildOrder(EventsOf(s.write.docs, oid)), ViewOf(s.c.tables, oid);
            if rebuilt.None? then v == ABSENT
            else && Agrees(v, rebuilt.value)
                 && v.row.value.total <= rebuilt.value.total
                 && (v.row.value.total == rebuilt.value.total <==> DistinctProducts(rebuilt.value.items))
                 && (DistinctProducts(rebuilt.value.items) ==> forall k :: 0 <= k < |rebuilt.value.items| ==>
                       Lookup(v.items, rebuilt.value.items[k].productId) == Some(RowOf(rebuilt.value.items[k])))
  {
    CalmRunKeepsInv(partitions, moves);
    var s := Pipeline.Run(partitions, moves);
    var p, log := PartitionOf(oid, |s.write.topic|), OrderLog(s.write.docs, oid);
    assert PublishedInv(s.write, oid);
    assert Published(s.write.topic, oid) == log;
    assert PartitionInv(s.write.topic, s.c, p);
    assert ViewOf(s.c.tables, oid) == ProjectLog(ABSENT, log);
    if log == [] {
      assert EventsOf(s.write.docs, oid) == [];
    } else {
      VersionsCoincide(s.write.docs, oid, |log|);
      LawfulInOrder(oid, log);
      FoldsAgree(oid, log);
      LawfulLinesPositive(oid, log);
      TotalsCompared(oid, log);
      if DistinctProducts(Replay(oid, log).items) {
        DistinctRows(Replay(oid, log).items);
      }
    }
  }
}
