/** The write side as a protocol of interleaved command handlers
    (api/routers/command_router.py, api/services/event_store.py, api/services/publisher.py).
    A handler loads and checks, appends, then publishes; any handler may stop at any point. */
module WriteSide {
  import opened Aggregate
  import opened Events
  import opened EventStore
  import opened Rebuild
  import opened Seqs
  import opened Topics

  const PUBLISH_ATTEMPTS := 3

  datatype Handler =
    | Ready(event: Event)                                   // guard passed, event built, not yet stored
    | Publishing(event: Event, attempt: nat, sent: bool)    // stored; `sent`: this attempt's send was acknowledged
    | Responded(event: Event)                               // returned normally to the client
    | Failed                                                // raised, or the process died

  datatype State = State(docs: seq<Event>, handlers: map<nat, Handler>, topic: Topic, publishedKeys: set<Id>)

  datatype Action =
    | Begin(h: nat, orderId: Id, eventId: Id, command: Command, charged: bool)
    | Append(h: nat, outcome: Outcome)
    | Send(h: nat, outcome: Outcome)
    | SetKey(h: nat, outcome: Outcome)
    | Kill(h: nat)
    | ForgetKey(eventId: Id)

  function Start(partitions: nat): State
  {
    State([], map[], EmptyTopic(partitions), {})
  }

  /** Load, rebuild, check the guard (and charge the card), build the event. */
  function Loaded(docs: seq<Event>, oid: Id, eid: Id, c: Command, charged: bool): Handler
  {
    if c.CreateOrder? then Ready(Event(eid, oid, 1, PayloadOf(c))) else
      var agg := RebuildOrder(EventsOf(docs, oid));
      if agg.None? || !CanApply(agg.value, PayloadOf(c)) || (c.ProcessPayment? && !charged) then Failed
      else Ready(Event(eid, oid, agg.value.version + 1, PayloadOf(c)))
  }

  function NextAttempt(e: Event, attempt: nat): Handler
  {
    if attempt + 1 < PUBLISH_ATTEMPTS then Publishing(e, attempt + 1, false) else Failed
  }

  function WithHandler(s: State, h: nat, hd: Handler): State
  {
    s.(handlers := s.handlers[h := hd])
  }

  /** One atomic step; an action that is not enabled changes nothing. */
  ghost function Step(s: State, a: Action): State
  {
    match a
    case Begin(h, oid, eid, c, charged) =>
      if h in s.handlers || !ValidRequest(c) then s else WithHandler(s, h, Loaded(s.docs, oid, eid, c, charged))
    case Append(h, outcome) =>
      if h !in s.handlers || !s.handlers[h].Ready? then s else
        var e := s.handlers[h].event;
        if outcome == Raised || Conflict(s.docs, e) then WithHandler(s, h, Failed)
        else WithHandler(s, h, if outcome == Ok then Publishing(e, 0, false) else Failed).(docs := s.docs + [e])
    case Send(h, outcome) =>
      if h !in s.handlers || !s.handlers[h].Publishing? || s.handlers[h].sent then s else
        var e, n := s.handlers[h].event, s.handlers[h].attempt;
        if e.eventId in s.publishedKeys then WithHandler(s, h, Responded(e)) else
          var s' := if outcome == Raised || s.topic == [] then s
                    else s.(topic := Put(s.topic, PartitionOf(e.orderId, |s.topic|), Message(e, 0)));
          WithHandler(s', h, if outcome == Ok then Publishing(e, n, true) else NextAttempt(e, n))
    case SetKey(h, outcome) =>
      if h !in s.handlers || !s.handlers[h].Publishing? || !s.handlers[h].sent then s else
        var e, n := s.handlers[h].event, s.handlers[h].attempt;
        var s' := if outcome == Raised then s else s.(publishedKeys := s.publishedKeys + {e.eventId});
        WithHandler(s', h, if outcome == Ok then Responded(e) else NextAttempt(e, n))
    case Kill(h) => if h in s.handlers then WithHandler(s, h, Failed) else s
    case ForgetKey(eid) => s.(publishedKeys := s.publishedKeys - {eid})
  }

  ghost function Run(partitions: nat, actions: seq<Action>): State
  {
    Fold(Step, Start(partitions), actions)
  }

  // ---------------------------------------------------------------- the invariant

  /** A built event was legal after some prefix of what is stored now: the snapshot it was checked against. */
  ghost predicate CheckedOnSnapshot(docs: seq<Event>, e: Event)
  {
    var log := OrderLog(docs, e.orderId);
    1 <= e.version <= |log| + 1 && Admissible(e.orderId, log[..e.version - 1], e)
  }

  ghost predicate HandlerOk(docs: seq<Event>, hd: Handler)
  {
    match hd
    case Ready(e) => CheckedOnSnapshot(docs, e)
    case Publishing(e, _, _) => e in docs
    case Responded(e) => e in docs
    case Failed => true
  }

  /** Only stored events are on the topic, each in the partition of its order. */
  ghost predicate TopicOk(docs: seq<Event>, topic: Topic)
  {
    forall p, i :: 0 <= p < |topic| && 0 <= i < |topic[p]| ==>
      topic[p][i].event in docs && topic[p][i].retryCount == 0 && p == PartitionOf(topic[p][i].event.orderId, |topic|)
  }

  /** What the stored events and the handlers keep, whatever is on the topic. */
  ghost predicate StoreInv(s: State)
  {
    && (forall oid :: Lawful(oid, OrderLog(s.docs, oid)))
    && DistinctIds(s.docs)
    && (forall h :: h in s.handlers ==> HandlerOk(s.docs, s.handlers[h]))
  }

  ghost predicate Inv(s: State)
  {
    StoreInv(s) && TopicOk(s.docs, s.topic)
  }

  /** What a handler loads is the complete log at that moment. */
  lemma {:induction false} LoadChecks(docs: seq<Event>, oid: Id, eid: Id, c: Command, charged: bool)
    requires Lawful(oid, OrderLog(docs, oid)) && ValidRequest(c)
    ensures HandlerOk(docs, Loaded(docs, oid, eid, c, charged))
  {
    var log := OrderLog(docs, oid);
    assert Issuable(PayloadOf(c));
    if !c.CreateOrder? && log != [] {
      VersionsCoincide(docs, oid, |log|);
      assert log[..|log|] == log;
    } else if !c.CreateOrder? {
      assert EventsOf(docs, oid) == [];
    }
  }

  /** The unique index turns "legal on a possibly stale snapshot" into "legal on everything stored". */
  lemma {:induction false} AppendIsLegal(docs: seq<Event>, e: Event)
    requires Lawful(e.orderId, OrderLog(docs, e.orderId)) && CheckedOnSnapshot(docs, e) && !Conflict(docs, e)
    ensures Admissible(e.orderId, OrderLog(docs, e.orderId), e)
  {
    var log := OrderLog(docs, e.orderId);
    if e.version <= |log| {
      var stored := log[e.version - 1];
      LawfulAt(e.orderId, log, e.version - 1);
      OrderLogElements(docs, e.orderId, stored);
      assert false;
    }
    assert log[..e.version - 1] == log;
  }

  lemma {:induction false} SnapshotSurvivesAppend(docs: seq<Event>, e: Event, stored: Event)
    requires CheckedOnSnapshot(docs, e)
    ensures CheckedOnSnapshot(docs + [stored], e)
  {
    OrderLogSnoc(docs, stored, e.orderId);
    var log, log' := OrderLog(docs, e.orderId), OrderLog(docs + [stored], e.orderId);
    assert log'[..e.version - 1] == log[..e.version - 1];
  }

  lemma {:induction false} AppendKeepsStore(s: State, h: nat, outcome: Outcome)
    requires StoreInv(s)
    ensures StoreInv(Step(s, Append(h, outcome)))
  {
    var s' := Step(s, Append(h, outcome));
    if s'.docs != s.docs {
      var e := s.handlers[h].event;
      AppendIsLegal(s.docs, e);
      forall oid ensures Lawful(oid, OrderLog(s'.docs, oid)) {
        OrderLogSnoc(s.docs, e, oid);
        LawfulSnoc(oid, OrderLog(s.docs, oid), e);
      }
      forall k | k in s'.handlers ensures HandlerOk(s'.docs, s'.handlers[k]) {
        if s'.handlers[k].Ready? {
          SnapshotSurvivesAppend(s.docs, s'.handlers[k].event, e);
        }
      }
    }
  }

  lemma SendKeepsTopicOk(docs: seq<Event>, topic: Topic, e: Event)
    requires TopicOk(docs, topic) && e in docs && topic != []
    ensures TopicOk(docs, Put(topic, PartitionOf(e.orderId, |topic|), Message(e, 0)))
  {
  }

  /** Every step of any handler keeps the stored histories legal. */
  lemma {:induction false} StepKeepsStore(s: State, a: Action)
    requires StoreInv(s)
    ensures StoreInv(Step(s, a))
  {
    match a {
      case Begin(h, oid, eid, c, charged) =>
        if ValidRequest(c) {
          LoadChecks(s.docs, oid, eid, c, charged);
        }
      case Append(h, outcome) => AppendKeepsStore(s, h, outcome);
      case Send(_, _) =>
      case SetKey(_, _) =>
      case Kill(_) =>
      case ForgetKey(_) =>
    }
  }

  lemma {:induction false} StepKeepsInv(s: State, a: Action)
    requires Inv(s)
    ensures Inv(Step(s, a))
  {
    StepKeepsStore(s, a);
    if a.Send? && a.h in s.handlers && s.handlers[a.h].Publishing? && s.topic != [] {
      SendKeepsTopicOk(s.docs, s.topic, s.handlers[a.h].event);
    }
  }

  lemma {:induction false} RunKeepsInv(partitions: nat, actions: seq<Action>)
    ensures Inv(Run(partitions, actions))
  {
    if actions != [] {
      RunKeepsInv(partitions, actions[..|actions| - 1]);
      StepKeepsInv(Run(partitions, actions[..|actions| - 1]), actions[|actions| - 1]);
    }
  }

  // ---------------------------------------------------------------- main results

  /** Under every interleaving of any number of handlers, each order's stored versions are 1..n in order of storage, and
      each event was legal in the state folded from exactly the events stored before it. The rebuilt version, the
      latest stored version and the number of events are the same number. */
  lemma {:induction false} OptimisticConcurrencyLinearises(partitions: nat, actions: seq<Action>, oid: Id)
    ensures var log := OrderLog(Run(partitions, actions).docs, oid);
            && (forall i :: 0 <= i < |log| ==> log[i].version == i + 1 && Admissible(oid, log[..i], log[i]))
            && EventsOf(Run(partitions, actions).docs, oid) == log
            && IsLatestVersion(Run(partitions, actions).docs, oid, |log|)
            && (log != [] ==> RebuildOrder(log).Some? && RebuildOrder(log).value.version == |log|)
  {
    RunKeepsInv(partitions, actions);
    var docs := Run(partitions, actions).docs;
    var log := OrderLog(docs, oid);
    assert Lawful(oid, log);
    forall i | 0 <= i < |log| ensures log[i].version == i + 1 && Admissible(oid, log[..i], log[i]) {
      LawfulAt(oid, log, i);
    }
    if log != [] {
      VersionsCoincide(docs, oid, |log|);
    }
  }

  /** What a client asked for has happened to the order, and nothing else. */
  predicate TookEffect(c: Command, o: Order, o': Order)
  {
    match c
    case CreateOrder(customer, email) =>
      o' == NewOrder(o.orderId).(version := 1, customerId := customer, customerEmail := email)
    case AddItem(product, name, quantity, price) =>
      && o'.items == o.items + [Item(product, name, quantity, price, quantity * price)]
      && o' == o.(version := o.version + 1, items := o'.items, total := o.total + quantity * price)
    case ConfirmOrder => o' == o.(version := o.version + 1, status := Confirmed)
    case ProcessPayment(payment, _, _) => o' == o.(version := o.version + 1, status := Paid, paymentId := Some(payment))
    case ShipOrder(tracking, _) => o' == o.(version := o.version + 1, status := Shipped, trackingId := Some(tracking))
    case CancelOrder(_) => o' == o.(version := o.version + 1, status := Cancelled)
  }

  /** An event carries everything the client sent. */
  predicate Carries(c: Command, p: Payload)
  {
    match c
    case CreateOrder(customer, email) => p.OrderCreated? && p.customerId == customer && p.customerEmail == email
    case AddItem(product, name, quantity, price) =>
      && p.ItemAdded? && p.productId == product && p.productName == name && p.quantity == quantity
      && p.unitPrice == price && p.lineTotal == quantity * price
    case ConfirmOrder => p.OrderConfirmed?
    case ProcessPayment(payment, amount, payMethod) =>
      p.PaymentProcessed? && p.paymentId == payment && p.amount == amount && p.payMethod == payMethod
    case ShipOrder(tracking, carrier) => p.OrderShipped? && p.trackingId == tracking && p.carrier == carrier
    case CancelOrder(reason) => p.OrderCancelled? && p.reason == reason
  }

  /** The handler has not built anything but the event of this command on this order. */
  predicate BuiltFor(s: State, h: nat, oid: Id, eid: Id, c: Command)
  {
    h in s.handlers &&
      (s.handlers[h].Ready? ==>
        var e := s.handlers[h].event; e.orderId == oid && e.eventId == eid && e.payload == PayloadOf(c))
  }

  lemma {:induction false} StaysBuiltFor(s: State, h: nat, oid: Id, eid: Id, c: Command, actions: seq<Action>)
    requires BuiltFor(s, h, oid, eid, c)
    ensures BuiltFor(Fold(Step, s, actions), h, oid, eid, c)
  {
    if actions != [] {
      StaysBuiltFor(s, h, oid, eid, c, actions[..|actions| - 1]);
    }
  }

  /** The event at the end of the new store is the command's. */
  predicate StoredFor(docs: seq<Event>, docs': seq<Event>, oid: Id, eid: Id, c: Command)
  {
    && |docs'| == |docs| + 1 && docs'[..|docs|] == docs
    && docs'[|docs|].orderId == oid && docs'[|docs|].eventId == eid && Carries(c, docs'[|docs|].payload)
  }

  /** A command that gets through is stored as one event with everything the client sent, and shows in the next rebuild
      of the order, whatever other handlers did between its load and its append. */
  lemma {:induction false} StoredCommandTakesEffect(
      partitions: nat, before: seq<Action>, h: nat, oid: Id, eid: Id, c: Command, charged: bool,
      between: seq<Action>, outcome: Outcome)
    requires h !in Run(partitions, before).handlers && ValidRequest(c)
    ensures var s := Run(partitions, before + [Begin(h, oid, eid, c, charged)] + between);
            var t := Step(s, Append(h, outcome));
            t.docs != s.docs ==>
              && StoredFor(s.docs, t.docs, oid, eid, c)
              && RebuildOrder(EventsOf(t.docs, oid)).Some?
              && TookEffect(c, Replay(oid, OrderLog(s.docs, oid)), RebuildOrder(EventsOf(t.docs, oid)).value)
  {
    var begin := Begin(h, oid, eid, c, charged);
    var loaded := Step(Run(partitions, before), begin);
    FoldSnoc(Step, Start(partitions), before, begin);
    FoldConcat(Step, Start(partitions), before + [begin], between);
    assert BuiltFor(loaded, h, oid, eid, c);
    StaysBuiltFor(loaded, h, oid, eid, c, between);
    RunKeepsInv(partitions, before + [begin] + between);
    AppendTakesEffect(Fold(Step, loaded, between), h, oid, eid, c, outcome);
  }

  lemma {:induction false} AppendTakesEffect(s: State, h: nat, oid: Id, eid: Id, c: Command, outcome: Outcome)
    requires StoreInv(s) && BuiltFor(s, h, oid, eid, c)
    ensures var t := Step(s, Append(h, outcome));
            t.docs != s.docs ==>
              && StoredFor(s.docs, t.docs, oid, eid, c)
              && RebuildOrder(EventsOf(t.docs, oid)).Some?
              && TookEffect(c, Replay(oid, OrderLog(s.docs, oid)), RebuildOrder(EventsOf(t.docs, oid)).value)
  {
    var t := Step(s, Append(h, outcome));
    if t.docs != s.docs {
      var e := s.handlers[h].event;
      StepKeepsStore(s, Append(h, outcome));
      OrderLogSnoc(s.docs, e, oid);
      StoredEventTakesEffect(oid, OrderLog(s.docs, oid), e, c);
      VersionsCoincide(t.docs, oid, |OrderLog(t.docs, oid)|);
    }
  }

  lemma {:induction false} StoredEventTakesEffect(oid: Id, log: seq<Event>, e: Event, c: Command)
    requires Lawful(oid, log + [e]) && e.payload == PayloadOf(c)
    ensures TookEffect(c, Replay(oid, log), Replay(oid, log + [e]))
  {
    LawfulSnoc(oid, log, e);
    LawfulVersion(oid, log);
    ReplaySnoc(oid, log, e);
  }

  ghost predicate Reachable(partitions: nat, oid: Id, es: seq<Event>)
  {
    exists actions :: OrderLog(Run(partitions, actions).docs, oid) == es
  }

  /** An order's history can come about exactly when it is numbered 1..n, has distinct event ids and spells a word of
      the language. */
  lemma {:induction false} ReachableIffLanguage(partitions: nat, oid: Id, es: seq<Event>)
    requires es != []
    ensures Reachable(partitions, oid, es) <==> Numbered(oid, es) && DistinctIds(es) && InLanguage(Kinds(es))
  {
    LawfulIffLanguage(oid, es);
    if Reachable(partitions, oid, es) {
      var actions :| OrderLog(Run(partitions, actions).docs, oid) == es;
      RunKeepsInv(partitions, actions);
      OrderLogDistinct(Run(partitions, actions).docs, oid);
    }
    if Lawful(oid, es) && DistinctIds(es) {
      OneOrderStore(oid, es);
      var actions := Script(partitions, es);
    }
  }

  /** Every order's history is legal, and no event id occurs twice. */
  ghost predicate LawfulStore(docs: seq<Event>)
  {
    DistinctIds(docs) && forall oid :: Lawful(oid, OrderLog(docs, oid))
  }

  lemma {:induction false} OneOrderStore(oid: Id, es: seq<Event>)
    requires Lawful(oid, es) && DistinctIds(es)
    ensures LawfulStore(es) && OrderLog(es, oid) == es
  {
    forall i | 0 <= i < |es| ensures es[i].orderId == oid {
      LawfulAt(oid, es, i);
    }
    OwnLog(es, oid);
    forall other ensures Lawful(other, OrderLog(es, other)) {
      if other != oid {
        ForeignLog(es, oid, other);
      }
    }
  }

  lemma {:induction false} ForeignLog(es: seq<Event>, oid: Id, other: Id)
    requires other != oid && forall i :: 0 <= i < |es| ==> es[i].orderId == oid
    ensures OrderLog(es, other) == []
  {
    if es != [] {
      ForeignLog(es[..|es| - 1], oid, other);
    }
  }

  /** A whole store can come about exactly when no event id occurs twice and each order's events, taken by themselves,
      are numbered 1..n and spell a word of the language: orders do not get in each other's way. */
  lemma {:induction false} StoreReachableIff(partitions: nat, docs: seq<Event>)
    ensures StoreReachable(partitions, docs) <==> DistinctIds(docs) && AllSpell(docs)
  {
    LawfulStoreSpells(docs);
    if StoreReachable(partitions, docs) {
      var actions :| Run(partitions, actions).docs == docs;
      RunKeepsInv(partitions, actions);
      assert LawfulStore(docs);
    }
    if LawfulStore(docs) {
      var actions := Script(partitions, docs);
    }
  }

  lemma {:induction false} LawfulStoreSpells(docs: seq<Event>)
    ensures LawfulStore(docs) <==> DistinctIds(docs) && AllSpell(docs)
  {
    forall oid ensures Lawful(oid, OrderLog(docs, oid)) <==> Spells(oid, OrderLog(docs, oid)) {
      if OrderLog(docs, oid) != [] {
        LawfulIffLanguage(oid, OrderLog(docs, oid));
      }
    }
  }

  ghost predicate AllSpell(docs: seq<Event>)
  {
    forall oid :: Spells(oid, OrderLog(docs, oid))
  }

  ghost predicate StoreReachable(partitions: nat, docs: seq<Event>)
  {
    exists actions :: Run(partitions, actions).docs == docs
  }

  /** A history is empty, or numbered 1..n and a word of the language. */
  ghost predicate Spells(oid: Id, es: seq<Event>)
  {
    es == [] || (Numbered(oid, es) && InLanguage(Kinds(es)))
  }

  lemma {:induction false} OrderLogDistinct(es: seq<Event>, oid: Id)
    requires DistinctIds(es)
    ensures DistinctIds(OrderLog(es, oid))
  {
    if es != [] {
      var init, e := es[..|es| - 1], es[|es| - 1];
      OrderLogDistinct(init, oid);
      var log := OrderLog(init, oid);
      forall i | 0 <= i < |log| ensures log[i].eventId != e.eventId {
        OrderLogElements(init, oid, log[i]);
      }
    }
  }

  /** Commands issued one after the other store any lawful collection of histories. */
  lemma {:induction false} Script(partitions: nat, docs: seq<Event>) returns (actions: seq<Action>)
    requires LawfulStore(docs)
    ensures Run(partitions, actions).docs == docs
    ensures forall h :: h in Run(partitions, actions).handlers ==> h < |docs|
  {
    if docs == [] {
      actions := [];
    } else {
      var init, e := docs[..|docs| - 1], docs[|docs| - 1];
      assert init + [e] == docs;
      StoreInit(init, e);
      var before := Script(partitions, init);
      var c :| ValidRequest(c) && PayloadOf(c) == e.payload;
      var begin := Begin(|init|, e.orderId, e.eventId, c, true);
      actions := before + [begin] + [Append(|init|, Ok)];
      FoldSnoc(Step, Start(partitions), before, begin);
      FoldSnoc(Step, Start(partitions), before + [begin], Append(|init|, Ok));
      ScriptStep(Run(partitions, before), init, e, c);
    }
  }

  lemma {:induction false} StoreInit(init: seq<Event>, e: Event)
    requires LawfulStore(init + [e])
    ensures LawfulStore(init) && Admissible(e.orderId, OrderLog(init, e.orderId), e)
  {
    var docs := init + [e];
    forall i, j | 0 <= i < j < |init| ensures init[i].eventId != init[j].eventId {
      assert docs[i].eventId != docs[j].eventId;
    }
    forall oid ensures Lawful(oid, OrderLog(init, oid)) {
      OrderLogSnoc(init, e, oid);
      LawfulSnoc(oid, OrderLog(init, oid), e);
    }
    OrderLogSnoc(init, e, e.orderId);
    LawfulSnoc(e.orderId, OrderLog(init, e.orderId), e);
  }

  lemma {:induction false} ScriptStep(s: State, init: seq<Event>, e: Event, c: Command)
    requires s.docs == init && |init| !in s.handlers && LawfulStore(init) && DistinctIds(init + [e])
    requires Admissible(e.orderId, OrderLog(init, e.orderId), e) && ValidRequest(c) && PayloadOf(c) == e.payload
    ensures var t := Step(Step(s, Begin(|init|, e.orderId, e.eventId, c, true)), Append(|init|, Ok));
            t.docs == init + [e] && t.handlers.Keys == s.handlers.Keys + {|init|}
  {
    ScriptLoads(init, e, c);
    ScriptAppends(init, e);
    var s1 := WithHandler(s, |init|, Ready(e));
    assert Step(s, Begin(|init|, e.orderId, e.eventId, c, true)) == s1;
    AppendStores(s1, |init|, e);
  }

  lemma AppendStores(s: State, h: nat, e: Event)
    requires h in s.handlers && s.handlers[h] == Ready(e) && !Conflict(s.docs, e)
    ensures Step(s, Append(h, Ok)) == WithHandler(s, h, Publishing(e, 0, false)).(docs := s.docs + [e])
  {
  }

  lemma {:induction false} ScriptLoads(init: seq<Event>, e: Event, c: Command)
    requires LawfulStore(init) && Admissible(e.orderId, OrderLog(init, e.orderId), e)
    requires ValidRequest(c) && PayloadOf(c) == e.payload
    ensures Loaded(init, e.orderId, e.eventId, c, true) == Ready(e)
  {
    var log := OrderLog(init, e.orderId);
    if log != [] {
      VersionsCoincide(init, e.orderId, |log|);
    }
  }

  /** Only the order's own events can refuse the next one, and they have lower versions. */
  lemma {:induction false} ScriptAppends(init: seq<Event>, e: Event)
    requires Lawful(e.orderId, OrderLog(init, e.orderId)) && e.version == |OrderLog(init, e.orderId)| + 1
    requires DistinctIds(init + [e])
    ensures !Conflict(init, e)
  {
    var log := OrderLog(init, e.orderId);
    forall i | 0 <= i < |init|
      ensures init[i].eventId != e.eventId && (init[i].orderId == e.orderId ==> init[i].version != e.version)
    {
      assert (init + [e])[i] == init[i] && (init + [e])[|init|] == e;
      if init[i].orderId == e.orderId {
        OrderLogElements(init, e.orderId, init[i]);
        var j :| 0 <= j < |log| && log[j] == init[i];
        LawfulAt(e.orderId, log, j);
      }
    }
  }

  // ---------------------------------------------------------------- where stored events come from

  /** Some action of the run asked for this event, with a valid request, and a payment was charged. */
  ghost predicate AskedFor(actions: seq<Action>, e: Event)
  {
    exists i :: 0 <= i < |actions| && Asks(actions[i], e)
  }

  predicate Asks(a: Action, e: Event)
  {
    && a.Begin? && a.orderId == e.orderId && a.eventId == e.eventId && ValidRequest(a.command)
    && Carries(a.command, e.payload) && (e.payload.PaymentProcessed? ==> a.charged)
  }

  ghost predicate AllAskedFor(s: State, actions: seq<Action>)
  {
    && (forall e :: e in s.docs ==> AskedFor(actions, e))
    && (forall h :: h in s.handlers && s.handlers[h].Ready? ==> AskedFor(actions, s.handlers[h].event))
  }

  lemma {:induction false} StepAsks(s: State, a: Action)
    ensures var t := Step(s, a);
            && (forall e :: e in t.docs ==> e in s.docs || (exists h :: h in s.handlers && s.handlers[h] == Ready(e)))
            && (forall h :: h in t.handlers && t.handlers[h].Ready? ==>
                  Asks(a, t.handlers[h].event) || (h in s.handlers && s.handlers[h] == t.handlers[h]))
  {
    var t := Step(s, a);
    if a.Begin? {
      BeginAsks(s, a);
    } else if t.docs != s.docs {
      assert s.handlers[a.h] == Ready(s.handlers[a.h].event);
    }
  }

  lemma BeginAsks(s: State, a: Action)
    requires a.Begin?
    ensures var t := Step(s, a);
            && t.docs == s.docs
            && (forall h :: h in t.handlers && t.handlers[h].Ready? ==>
                  Asks(a, t.handlers[h].event) || (h in s.handlers && s.handlers[h] == t.handlers[h]))
  {
  }

  /** Every stored event goes back to a valid request for its order and under its id, with the same contents; a stored
      payment goes back to one whose charge succeeded. */
  lemma {:induction false} StoredWasAskedFor(partitions: nat, actions: seq<Action>)
    ensures AllAskedFor(Run(partitions, actions), actions)
  {
    if actions != [] {
      var init, a := actions[..|actions| - 1], actions[|actions| - 1];
      StoredWasAskedFor(partitions, init);
      StepAsks(Run(partitions, init), a);
      AskedStays(Run(partitions, init), Run(partitions, actions), init, a);
      assert init + [a] == actions;
    }
  }

  lemma {:induction false} AskedStays(s: State, t: State, init: seq<Action>, a: Action)
    requires AllAskedFor(s, init)
    requires forall e :: e in t.docs ==> e in s.docs || (exists h :: h in s.handlers && s.handlers[h] == Ready(e))
    requires forall h :: h in t.handlers && t.handlers[h].Ready? ==>
               Asks(a, t.handlers[h].event) || (h in s.handlers && s.handlers[h] == t.handlers[h])
    ensures AllAskedFor(t, init + [a])
  {
    var all := init + [a];
    forall e | AskedFor(init, e) ensures AskedFor(all, e) {
      var i :| 0 <= i < |init| && Asks(init[i], e);
      assert Asks(all[i], e);
    }
    forall e | Asks(a, e) ensures AskedFor(all, e) {
      assert Asks(all[|init|], e);
    }
    forall e | e in t.docs ensures AskedFor(all, e) {
      if e !in s.docs {
        var h :| h in s.handlers && s.handlers[h] == Ready(e);
        assert AskedFor(init, s.handlers[h].event);
      }
    }
  }
}
