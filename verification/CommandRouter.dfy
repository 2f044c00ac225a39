/** One command from request to response: load, guard, charge, append, publish (api/routers/command_router.py). */
module CommandRouter {
  import opened Aggregate
  import opened Events
  import opened EventStore
  import opened Publisher
  import opened Rebuild
  import opened Seqs
  import opened Topics
  import opened WriteSide

  datatype Response =
    | Done(eventId: Id, version: int)
    | Unprocessable    // the request body fails validation
    | NotFound         // no events for the order
    | NotAllowed       // a guard of the aggregate raised
    | NotCharged       // the payment gateway declined
    | Taken            // a unique index of the event store refused the event
    | NotStored        // the insert raised for another reason
    | NotPublished     // stored, but all publish attempts raised

  /** The command as steps of the protocol of one handler. */
  function CommandSteps(h: nat, oid: Id, eid: Id, c: Command, charged: bool, insert: Outcome, attempts: seq<Attempt>):
    seq<Action>
  {
    [Begin(h, oid, eid, c, charged)] + [Append(h, insert)] + AttemptSteps(h, attempts)
  }

  lemma {:induction false} CommandStepsFold(
      h: nat, s: State, oid: Id, eid: Id, c: Command, charged: bool, insert: Outcome, attempts: seq<Attempt>)
    ensures Fold(Step, s, CommandSteps(h, oid, eid, c, charged, insert, attempts)) ==
            Fold(Step, Step(Step(s, Begin(h, oid, eid, c, charged)), Append(h, insert)), AttemptSteps(h, attempts))
  {
    var first := [Begin(h, oid, eid, c, charged)];
    FoldConcat(Step, s, first + [Append(h, insert)], AttemptSteps(h, attempts));
    FoldSnoc(Step, s, first, Append(h, insert));
    FoldSnoc(Step, s, [], first[0]);
    assert [] + first == first;
  }

  /** Attempts do nothing for a handler that is not publishing. */
  lemma {:induction false} NotPublishingIgnores(h: nat, s: State, attempts: seq<Attempt>)
    requires h in s.handlers ==> !s.handlers[h].Publishing?
    ensures Fold(Step, s, AttemptSteps(h, attempts)) == s
  {
    if attempts != [] {
      var n := |attempts| - 1;
      NotPublishingIgnores(h, s, attempts[..n]);
      AttemptStep(h, s, attempts[..n], attempts[n]);
      assert attempts[..n] + [attempts[n]] == attempts;
    }
  }

  /** What the event store ends with, and where the handler stands, after the insert of a built event. */
  function Inserting(s: State, h: nat, e: Event, insert: Outcome): State
  {
    if insert == Raised || Conflict(s.docs, e) then State(s.docs, map[h := Failed], s.topic, s.publishedKeys)
    else
      var hd := if insert == Ok then Publishing(e, 0, false) else Failed;
      State(s.docs + [e], map[h := hd], s.topic, s.publishedKeys)
  }

  lemma {:induction false} LoneAppend(s: State, h: nat, oid: Id, eid: Id, c: Command, charged: bool, insert: Outcome)
    requires s.handlers == map[] && ValidRequest(c)
    ensures var t := Step(Step(s, Begin(h, oid, eid, c, charged)), Append(h, insert));
            var loaded := Loaded(s.docs, oid, eid, c, charged);
            t == if loaded.Ready? then Inserting(s, h, loaded.event, insert)
                 else State(s.docs, map[h := Failed], s.topic, s.publishedKeys)
  {
    var loaded := Loaded(s.docs, oid, eid, c, charged);
    assert Step(s, Begin(h, oid, eid, c, charged)) == State(s.docs, map[h := loaded], s.topic, s.publishedKeys);
    LoneAppendOf(State(s.docs, map[h := loaded], s.topic, s.publishedKeys), h, loaded, insert);
  }

  lemma {:induction false} LoneAppendOf(s: State, h: nat, hd: Handler, insert: Outcome)
    requires s.handlers == map[h := hd] && (hd.Ready? || hd == Failed)
    ensures Step(s, Append(h, insert)) == if hd == Failed then s else Inserting(s, h, hd.event, insert)
  {
    assert s.handlers[h := Failed] == map[h := Failed];
    if hd.Ready? {
      assert s.handlers[h := Publishing(hd.event, 0, false)] == map[h := Publishing(hd.event, 0, false)];
    }
  }

  /** A lone handler that does not get as far as publishing. */
  lemma {:induction false} LoneFailure(
      s: State, h: nat, oid: Id, eid: Id, c: Command, charged: bool, insert: Outcome, attempts: seq<Attempt>)
    requires s.handlers == map[]
    ensures var t := Fold(Step, s, CommandSteps(h, oid, eid, c, charged, insert, attempts));
            var loaded := Loaded(s.docs, oid, eid, c, charged);
            if !ValidRequest(c) then t == s
            else if !loaded.Ready? then t == State(s.docs, map[h := Failed], s.topic, s.publishedKeys)
            else insert != Ok || Conflict(s.docs, loaded.event) ==> t == Inserting(s, h, loaded.event, insert)
  {
    CommandStepsFold(h, s, oid, eid, c, charged, insert, attempts);
    if ValidRequest(c) {
      LoneAppend(s, h, oid, eid, c, charged, insert);
    }
    var u := Step(Step(s, Begin(h, oid, eid, c, charged)), Append(h, insert));
    if h !in u.handlers || !u.handlers[h].Publishing? {
      NotPublishingIgnores(h, u, attempts);
    }
  }

  // ---------------------------------------------------------------- what the client may rely on

  /** Quantities, prices and amounts are positive. */
  predicate Proper(c: Command)
  {
    (c.AddItem? ==> c.quantity > 0 && c.unitPrice > 0) && (c.ProcessPayment? ==> c.amount > 0)
  }

  /** The order as rebuilt from the store. */
  function Current(docs: seq<Event>, oid: Id): Option<Order>
  {
    RebuildOrder(EventsOf(docs, oid))
  }

  ghost predicate Unknown(docs: seq<Event>, oid: Id)
  {
    forall e :: e in docs ==> e.orderId != oid
  }

  /** The request is in order: a new order, or a step the order allows; and a payment has been charged. */
  ghost predicate Admits(docs: seq<Event>, oid: Id, c: Command, charged: bool)
  {
    && Proper(c)
    && (c.CreateOrder? ||
          (!Unknown(docs, oid) && Current(docs, oid).Some? && CanApply(Current(docs, oid).value, PayloadOf(c))))
    && (c.ProcessPayment? ==> charged)
  }

  function NextVersion(docs: seq<Event>, oid: Id, c: Command): int
  {
    if c.CreateOrder? || Current(docs, oid).None? then 1 else Current(docs, oid).value.version + 1
  }

  /** Another event has the id, or the order already has an event of that version. */
  ghost predicate IsTaken(docs: seq<Event>, oid: Id, eid: Id, version: int)
  {
    exists i :: 0 <= i < |docs| && (docs[i].eventId == eid || (docs[i].orderId == oid && docs[i].version == version))
  }

  /** Why a request is refused before anything is stored. */
  ghost predicate Refused(r: Response, docs: seq<Event>, oid: Id, c: Command, charged: bool)
  {
    var allowed := Current(docs, oid).Some? && CanApply(Current(docs, oid).value, PayloadOf(c));
    && (r.NotFound? <==> Proper(c) && !c.CreateOrder? && Unknown(docs, oid))
    && (r.NotAllowed? <==> Proper(c) && !c.CreateOrder? && !Unknown(docs, oid) && !allowed)
    && (r.NotCharged? <==> Proper(c) && c.ProcessPayment? && !Unknown(docs, oid) && allowed && !charged)
  }

  /** The response to a command, from the request, the stored events, the charge, the insert and the publish. */
  ghost predicate Answers(
      r: Response, docs: seq<Event>, oid: Id, eid: Id, c: Command, charged: bool, insert: Outcome, published: bool)
  {
    var admitted, version := Admits(docs, oid, c, charged), NextVersion(docs, oid, c);
    var taken := IsTaken(docs, oid, eid, version);
    && (r.Unprocessable? <==> !Proper(c))
    && Refused(r, docs, oid, c, charged)
    && (r.Taken? <==> admitted && insert != Raised && taken)
    && (r.NotStored? <==> admitted && (insert == Raised || (insert == LostReply && !taken)))
    && (r.NotPublished? <==> admitted && insert == Ok && !taken && !published)
    && (r.Done? <==> admitted && insert == Ok && !taken && published)
    && (r.Done? ==> r.eventId == eid && r.version == version)
  }

  /** What the store holds afterwards. */
  ghost predicate Stores(
      docs: seq<Event>, docs': seq<Event>, oid: Id, eid: Id, c: Command, charged: bool, insert: Outcome)
  {
    var version := NextVersion(docs, oid, c);
    if Admits(docs, oid, c, charged) && insert != Raised && !IsTaken(docs, oid, eid, version)
    then StoredFor(docs, docs', oid, eid, c) && docs'[|docs|].version == version
    else docs' == docs
  }

  class Router {
    const store: Store
    const publisher: KafkaEventPublisher

    constructor (store: Store, publisher: KafkaEventPublisher)
      ensures this.store == store && this.publisher == publisher
    {
      this.store, this.publisher := store, publisher;
    }

    /** The stored events, the topic and the published keys, as a protocol state. */
    ghost function Value(handlers: map<nat, Handler>): State
      reads this, store, publisher
    {
      State(Bodies(store.docs), handlers, publisher.topic, publisher.publishedKeys)
    }

    /** The guard each endpoint calls. */
    static method Guard(agg: OrderAggregate, c: Command) returns (allowed: bool)
      requires !c.CreateOrder?
      ensures allowed <==> CanApply(agg.Value(), PayloadOf(c))
    {
      match c {
        case AddItem(_, _, _, _) => allowed := agg.CanAddItem();
        case ConfirmOrder => allowed := agg.CanConfirm();
        case ProcessPayment(_, _, _) => allowed := agg.CanPay();
        case ShipOrder(_, _) => allowed := agg.CanShip();
        case CancelOrder(_) => allowed := agg.CanCancel();
      }
    }

    /** `_load_aggregate`: the rebuilt order, or null when the store has no event of it. */
    method LoadAggregate(oid: Id) returns (agg: OrderAggregate?)
      ensures agg == null <==> forall e :: e in Bodies(store.docs) ==> e.orderId != oid
      ensures agg == null ==> RebuildOrder(EventsOf(Bodies(store.docs), oid)) == None
      ensures agg != null ==> fresh(agg) && RebuildOrder(EventsOf(Bodies(store.docs), oid)) == Some(agg.Value())
    {
      var events := store.GetEvents(oid);
      agg := OrderAggregate.RebuildFromEvents(events);
      if events != [] {
        assert events[0] in events;
      }
    }

    /** The load, the guard, the charge and the event factory: the event to store, or why there is none. */
    method Prepare(oid: Id, eid: Id, c: Command, charged: bool)
      returns (e: Option<Event>, why: Response)
      requires ValidRequest(c)
      ensures Loaded(Bodies(store.docs), oid, eid, c, charged) == if e.Some? then Ready(e.value) else Failed
      ensures e.Some? <==> Admits(Bodies(store.docs), oid, c, charged)
      ensures e.Some? ==> e.value == Event(eid, oid, NextVersion(Bodies(store.docs), oid, c), PayloadOf(c))
      ensures if e.Some? then why.Done? else Refused(why, Bodies(store.docs), oid, c, charged)
      ensures e.None? ==> why.NotFound? || why.NotAllowed? || why.NotCharged?
    {
      why := Done(eid, 0);
      if c.CreateOrder? {
        return Some(Event(eid, oid, 1, PayloadOf(c))), why;
      }
      var agg := LoadAggregate(oid);
      if agg == null {
        return None, NotFound;
      }
      var allowed := Guard(agg, c);
      if !allowed {
        return None, NotAllowed;
      }
      if c.ProcessPayment? && !charged {
        return None, NotCharged;
      }
      return Some(Event(eid, oid, agg.version + 1, PayloadOf(c))), why;
    }

    /** Handling a command without interruption is the run of one handler. In plain terms: every response is given
        exactly for its cause, and the store gains exactly the event the client asked for, exactly when the request is
        in order, charged, not taken and the insert takes effect. */
    method Handle(
        oid: Id, eid: Id, c: Command, charged: bool, insert: Outcome, attempts: seq<Attempt>, p: nat, ghost h: nat)
      returns (r: Response)
      requires publisher.topic != [] && p == PartitionOf(oid, |publisher.topic|) && |attempts| == 3
      modifies store, publisher
      ensures var t := Fold(Step, old(Value(map[])), CommandSteps(h, oid, eid, c, charged, insert, attempts));
              && Value(t.handlers) == t
              && (r.Unprocessable? <==> h !in t.handlers)
              && (r.Done? <==> h in t.handlers && t.handlers[h].Responded?)
              && (r.Done? ==> t.handlers[h].event.eventId == r.eventId && t.handlers[h].event.version == r.version)
      ensures Answers(r, old(Bodies(store.docs)), oid, eid, c, charged, insert,
                      Returns(old(publisher.publishedKeys), eid, attempts))
      ensures Stores(old(Bodies(store.docs)), Bodies(store.docs), oid, eid, c, charged, insert)
      ensures !r.Done? && !r.NotPublished? ==>
              publisher.topic == old(publisher.topic) && publisher.publishedKeys == old(publisher.publishedKeys)
    {
      ghost var start, docs := Value(map[]), Bodies(store.docs);
      LoneFailure(start, h, oid, eid, c, charged, insert, attempts);
      if !ValidRequest(c) {
        return Unprocessable;
      }
      var e, why := Prepare(oid, eid, c, charged);
      if e.None? {
        return why;
      }
      TakenIsConflict(docs, e.value);
      var stored := store.Append(e.value, insert);
      if stored != Stored {
        return if stored == Duplicate then Taken else NotStored;
      }
      CommandStepsFold(h, start, oid, eid, c, charged, insert, attempts);
      LoneAppend(start, h, oid, eid, c, charged, insert);
      var ok := publisher.Publish(e.value, p, attempts, h, Bodies(store.docs));
      return if ok then Done(eid, e.value.version) else NotPublished;
    }
  }

  lemma TakenIsConflict(docs: seq<Event>, e: Event)
    ensures IsTaken(docs, e.orderId, e.eventId, e.version) <==> Conflict(docs, e)
  {
  }
}
