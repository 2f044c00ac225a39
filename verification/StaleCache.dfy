/** A reader whose interval from Postgres read to cache write spans a projection and its cache delete
    (`get_order` in api/routers/query_router.py, consumers/main.py). */
module StaleCache {
  import opened Cache
  import opened Consumer
  import opened Events
  import opened ReadModel
  import opened Seqs
  import opened Topics

  /** The consumer up to the cache delete, and from there to the next poll. */
  function Projecting(p: nat): seq<Move>
  {
    [Consume(Fetch(p)), Consume(Check), Consume(ProjectStep(Ok)), Consume(Invalidate(Ok))]
  }

  function Finishing(): seq<Move>
  {
    [Consume(Mark(Ok)), Consume(Stamp(Ok)), Consume(Commit(Ok))]
  }

  function Reading(r: nat, oid: Id): seq<Move>
  {
    [Ask(r, oid), LookUp(r), Query(r)]
  }

  /** A new message that can be projected is waiting in partition `p`. */
  ghost predicate Awaits(s: Site, p: nat, m: Message)
  {
    && s.c.phase.Polling? && p < |s.topic| && p < |s.c.committed| && s.c.committed[p] < |s.topic[p]|
    && s.topic[p][s.c.committed[p]] == m && m.event.eventId !in s.c.processed && Project(s.c.tables, m.event).Some?
  }

  /** The site after a projection and its cache delete. */
  ghost function AfterDelete(s: Site, p: nat, m: Message): Site
    requires Awaits(s, p, m)
  {
    var t := Projected(s.c.tables, m.event);
    s.(c := s.c.(tables := t, projected := s.c.projected + {m.event}, cache := s.c.cache - {m.event.orderId},
                 phase := Busy(p, s.c.committed[p], m, AtMark)),
       readers := Cross(s.readers, m.event.orderId),
       dirty := s.dirty + {m.event.orderId} - {m.event.orderId})
  }

  lemma {:induction false} ProjectingRun(s: Site, p: nat, m: Message)
    requires Awaits(s, p, m)
    ensures Fold(Next, s, Projecting(p)) == AfterDelete(s, p, m)
  {
    FoldFour(Next, s, Projecting(p));
    ProjectingStarts(s, p, m);
    ProjectingEnds(s, p, m);
  }

  ghost function AtProjection(s: Site, p: nat, m: Message): Site
    requires p < |s.c.committed|
  {
    s.(c := s.c.(phase := Busy(p, s.c.committed[p], m, AtProject)))
  }

  lemma ProjectingStarts(s: Site, p: nat, m: Message)
    requires Awaits(s, p, m)
    ensures Next(Next(s, Consume(Fetch(p))), Consume(Check)) == AtProjection(s, p, m)
  {
  }

  lemma ProjectingEnds(s: Site, p: nat, m: Message)
    requires Awaits(s, p, m)
    ensures Next(Next(AtProjection(s, p, m), Consume(ProjectStep(Ok))), Consume(Invalidate(Ok))) == AfterDelete(s, p, m)
  {
  }

  lemma {:induction false} FinishingRun(s: Site)
    requires IsAt(s.c, AtMark) && s.c.phase.p < |s.c.committed|
    ensures Fold(Next, s, Finishing()) ==
            s.(c := s.c.(processed := s.c.processed + {s.c.phase.m.event.eventId}, phase := Polling,
                         committed := s.c.committed[s.c.phase.p := s.c.phase.off + 1]))
  {
    FoldThree(Next, s, Finishing());
    FinishingSteps(s);
  }

  lemma {:induction false} FinishingSteps(s: Site)
    requires IsAt(s.c, AtMark) && s.c.phase.p < |s.c.committed|
    ensures Next(Next(Next(s, Consume(Mark(Ok))), Consume(Stamp(Ok))), Consume(Commit(Ok))) ==
            s.(c := s.c.(processed := s.c.processed + {s.c.phase.m.event.eventId}, phase := Polling,
                         committed := s.c.committed[s.c.phase.p := s.c.phase.off + 1]))
  {
    MarkStep(s);
    CommitSteps(
      s.(c := s.c.(processed := s.c.processed + {s.c.phase.m.event.eventId}, phase := s.c.phase.(at := AtStamp))));
  }

  lemma MarkStep(s: Site)
    requires IsAt(s.c, AtMark)
    ensures Next(s, Consume(Mark(Ok))) ==
            s.(c := s.c.(processed := s.c.processed + {s.c.phase.m.event.eventId}, phase := s.c.phase.(at := AtStamp)))
  {
  }

  lemma CommitSteps(s: Site)
    requires IsAt(s.c, AtStamp) && s.c.phase.p < |s.c.committed|
    ensures Next(Next(s, Consume(Stamp(Ok))), Consume(Commit(Ok))) ==
            s.(c := s.c.(phase := Polling, committed := s.c.committed[s.c.phase.p := s.c.phase.off + 1]))
  {
  }

  lemma {:induction false} ReadingRun(s: Site, r: nat, oid: Id)
    requires r !in s.readers && oid !in s.c.cache && oid in s.c.tables.orders
    ensures Fold(Next, s, Reading(r, oid)) == WithReader(s, r, Holding(oid, ViewOf(s.c.tables, oid), false))
  {
    FoldThree(Next, s, Reading(r, oid));
    AskSteps(s, r, oid);
    QueryStep(s, r, oid);
  }

  /** A read of the order that is overtaken by a projection and its cache delete before it fills the cache. */
  function Spanning(r: nat, oid: Id, p: nat): seq<Move>
  {
    Reading(r, oid) + Projecting(p) + [Store(r, Ok)]
  }

  /** Such a read leaves an entry of an order that counts as clean, and the entry is stale exactly when the projection
      has changed what is shown of the order. */
  lemma {:induction false} SpanIsStaleIff(s: Site, r: nat, p: nat, m: Message)
    requires Awaits(s, p, m) && r !in s.readers && m.event.orderId !in s.c.cache && m.event.orderId in s.c.tables.orders
    ensures var oid := m.event.orderId;
            var s', before := Fold(Next, s, Spanning(r, oid, p)), ViewOf(s.c.tables, oid);
            && oid in s'.c.cache && oid !in s'.dirty
            && (s'.c.cache[oid] != ViewOf(s'.c.tables, oid) <==> ProjectView(before, m.event) != before)
  {
    var oid := m.event.orderId;
    var s1 := WithReader(s, r, Holding(oid, ViewOf(s.c.tables, oid), false));
    ReadingRun(s, r, oid);
    FoldConcat(Next, s, Reading(r, oid), Projecting(p));
    ProjectingRun(s1, p, m);
    FoldSnoc(Next, s, Reading(r, oid) + Projecting(p), Store(r, Ok));
    ProjectIsLocal(s.c.tables, m.event, oid);
    StoreAfter(s1, r, p, m);
  }

  lemma StoreAfter(s: Site, r: nat, p: nat, m: Message)
    requires Awaits(s, p, m) && r in s.readers && s.readers[r].Holding? && s.readers[r].orderId == m.event.orderId
    ensures var s' := Next(AfterDelete(s, p, m), Store(r, Ok));
            && m.event.orderId in s'.c.cache && m.event.orderId !in s'.dirty
            && s'.c.cache[m.event.orderId] == s.readers[r].view && s'.c.tables == Projected(s.c.tables, m.event)
  {
  }

  // ---------------------------------------------------------------- a run with a stale entry

  /** The site after the CREATED event of an order has been consumed and its next event has arrived. */
  ghost function Prepared(partitions: nat, p: nat, created: Event, next: Event): Site
    requires p < partitions && created.payload.OrderCreated?
  {
    var t := Projected(EMPTY, created);
    var topic := Put(Put(EmptyTopic(partitions), p, Message(created, 0)), p, Message(next, 0));
    var c := Consumer.Start(partitions);
    Site(topic,
         c.(committed := c.committed[p := 1], tables := t, processed := {created.eventId}, projected := {created}),
         map[], {})
  }

  function Preparing(p: nat, created: Event, next: Event): seq<Move>
  {
    [Grow(p, Message(created, 0))] + Projecting(p) + Finishing() + [Grow(p, Message(next, 0))]
  }

  lemma {:induction false} PreparedIsReached(partitions: nat, p: nat, created: Event, next: Event)
    requires p < partitions && created.payload.OrderCreated?
    ensures Run(partitions, Preparing(p, created, next)) == Prepared(partitions, p, created, next)
  {
    PreparingFold(Next, Cache.Start(partitions), p, created, next);
    var s1 := Grown(partitions, p, created);
    assert Next(Cache.Start(partitions), Grow(p, Message(created, 0))) == s1;
    ConsumedFirst(partitions, p, created, next);
  }

  lemma {:induction false} PreparingFold(f: (Site, Move) -> Site, s: Site, p: nat, created: Event, next: Event)
    ensures Fold(f, s, Preparing(p, created, next)) ==
            f(Fold(f, Fold(f, f(s, Grow(p, Message(created, 0))), Projecting(p)), Finishing()),
                Grow(p, Message(next, 0)))
  {
    var grow := [Grow(p, Message(created, 0))];
    FoldSnoc(f, s, [], grow[0]);
    assert [] + grow == grow;
    FoldConcat(f, s, grow, Projecting(p));
    FoldConcat(f, s, grow + Projecting(p), Finishing());
    FoldSnoc(f, s, grow + Projecting(p) + Finishing(), Grow(p, Message(next, 0)));
  }

  ghost function Grown(partitions: nat, p: nat, created: Event): Site
    requires p < partitions
  {
    Cache.Start(partitions).(topic := Put(EmptyTopic(partitions), p, Message(created, 0)))
  }

  lemma {:induction false} ConsumedFirst(partitions: nat, p: nat, created: Event, next: Event)
    requires p < partitions && created.payload.OrderCreated?
    ensures var s1 := Grown(partitions, p, created);
            Fold(Next, Fold(Next, s1, Projecting(p)), Finishing()) ==
            Prepared(partitions, p, created, next).(topic := s1.topic)
  {
    var s1, m := Grown(partitions, p, created), Message(created, 0);
    ProjectingRun(s1, p, m);
    FinishingRun(AfterDelete(s1, p, m));
    FirstProjection(s1, p, m);
  }

  lemma FirstProjection(s: Site, p: nat, m: Message)
    requires Awaits(s, p, m) && s.c.cache == map[] && s.readers == map[] && s.dirty == {}
    ensures AfterDelete(s, p, m).c.cache == map[] && AfterDelete(s, p, m).readers == map[] &&
        AfterDelete(s, p, m).dirty == {}
  {
  }

  /** The hypothesis on spanning readers is needed: after CREATED, a read spanned by the CONFIRMED of the order leaves a
      stale entry although nothing failed. */
  lemma {:induction false} SpanLeavesStaleEntry(partitions: nat, p: nat, r: nat, created: Event, confirmed: Event)
    requires p < partitions && created.payload.OrderCreated? && confirmed.payload.OrderConfirmed?
    requires created.orderId == confirmed.orderId && created.eventId != confirmed.eventId
    ensures var oid := created.orderId;
            var s := Run(partitions, Preparing(p, created, confirmed) + Spanning(r, oid, p));
            oid in s.c.cache && oid !in s.dirty && s.c.cache[oid] != ViewOf(s.c.tables, oid)
  {
    var s := Prepared(partitions, p, created, confirmed);
    PreparedIsReached(partitions, p, created, confirmed);
    FoldConcat(Next, Cache.Start(partitions), Preparing(p, created, confirmed), Spanning(r, created.orderId, p));
    assert s.topic[p][1] == Message(confirmed, 0);
    SpanIsStaleIff(s, r, p, Message(confirmed, 0));
  }
}
