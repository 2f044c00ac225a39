/** The cache-aside reader beside the consumer (`get_order` in api/routers/query_router.py, consumers/main.py). */
module Cache {
  import opened Consumer
  import opened Events
  import opened ReadModel
  import opened Seqs
  import opened Topics

  datatype Reader =
    | Asked(orderId: Id)
    | Missed(orderId: Id)                               // not in the cache, about to query Postgres
    | Holding(orderId: Id, view: View, crossed: bool)   // has read Postgres; `crossed`: the order was projected since
    | Answered(orderId: Id, view: View)
    | NotFound(orderId: Id)
    | Broken(orderId: Id)

  /** `dirty`: orders projected since their last cache delete. */
  datatype Site = Site(topic: Topic, c: State, readers: map<nat, Reader>, dirty: set<Id>)

  datatype Move =
    | Grow(p: nat, m: Message)
    | Consume(action: Action)
    | Ask(r: nat, orderId: Id)
    | LookUp(r: nat)
    | Query(r: nat)
    | Store(r: nat, outcome: Outcome)
    | Evict(orderId: Id)

  function Start(partitions: nat): Site
  {
    Site(EmptyTopic(partitions), Consumer.Start(partitions), map[], {})
  }

  /** The step commits a projection of the order of the message at hand. */
  ghost predicate Commits(s: Site, a: Action)
  {
    a.ProjectStep? && a.outcome != Raised && IsAt(s.c, AtProject) && Project(s.c.tables, s.c.phase.m.event).Some?
  }

  predicate Deletes(s: Site, a: Action)
  {
    a.Invalidate? && a.outcome != Raised && IsAt(s.c, AtInvalidate)
  }

  function Cross(readers: map<nat, Reader>, oid: Id): map<nat, Reader>
  {
    map r | r in readers ::
      if readers[r].Holding? && readers[r].orderId == oid then readers[r].(crossed := true) else readers[r]
  }

  ghost function ConsumerStep(s: Site, a: Action): Site
  {
    var s' := s.(c := Step(s.topic, s.c, a));
    if Commits(s, a) then
      var oid := s.c.phase.m.event.orderId;
      s'.(readers := Cross(s.readers, oid), dirty := s.dirty + {oid})
    else if Deletes(s, a) then s'.(dirty := s.dirty - {s.c.phase.m.event.orderId})
    else s'
  }

  function WithReader(s: Site, r: nat, rd: Reader): Site
  {
    s.(readers := s.readers[r := rd])
  }

  function AfterQuery(t: Tables, oid: Id): Reader
  {
    if ViewOf(t, oid).row.None? then NotFound(oid) else Holding(oid, ViewOf(t, oid), false)
  }

  ghost function Next(s: Site, ev: Move): Site
  {
    match ev
    case Grow(p, m) => if p < |s.topic| then s.(topic := Put(s.topic, p, m)) else s
    case Consume(a) => ConsumerStep(s, a)
    case Ask(r, oid) => if r in s.readers then s else WithReader(s, r, Asked(oid))
    case LookUp(r) =>
      if r !in s.readers || !s.readers[r].Asked? then s else
        var oid := s.readers[r].orderId;
        WithReader(s, r, if oid in s.c.cache then Answered(oid, s.c.cache[oid]) else Missed(oid))
    case Query(r) =>
      if r !in s.readers || !s.readers[r].Missed? then s
      else WithReader(s, r, AfterQuery(s.c.tables, s.readers[r].orderId))
    case Store(r, outcome) =>
      if r !in s.readers || !s.readers[r].Holding? then s else
        var oid, v := s.readers[r].orderId, s.readers[r].view;
        var s' := if outcome == Raised then s else s.(c := s.c.(cache := s.c.cache[oid := v]));
        WithReader(s', r, if outcome == Ok then Answered(oid, v) else Broken(oid))
    case Evict(oid) => s.(c := s.c.(cache := s.c.cache - {oid}))
  }

  ghost function Run(partitions: nat, events: seq<Move>): Site
  {
    Fold(Next, Start(partitions), events)
  }

  /** What a consumer step can do to tables and cache. */
  lemma ConsumerEffects(s: Site, a: Action)
    ensures Commits(s, a) ==> Step(s.topic, s.c, a).tables == Projected(s.c.tables, s.c.phase.m.event)
    ensures !Commits(s, a) ==> Step(s.topic, s.c, a).tables == s.c.tables
    ensures Step(s.topic, s.c, a).cache == if Deletes(s, a) then s.c.cache - {s.c.phase.m.event.orderId} else s.c.cache
  {
  }

  // ---------------------------------------------------------------- every answer was true once

  /** Move `i` of the run is the Postgres read of reader `r`, and it saw `v`. */
  ghost predicate Queried(partitions: nat, events: seq<Move>, i: nat, r: nat, oid: Id, v: View)
  {
    i < |events| && events[i] == Query(r) && v == ViewOf(Run(partitions, events[..i]).c.tables, oid) && v.row.Some?
  }

  /** Reader `r` put what it had read at `i` into the cache at `j`. */
  ghost predicate Cached(partitions: nat, events: seq<Move>, i: nat, j: nat, r: nat, oid: Id, v: View)
  {
    Queried(partitions, events, i, r, oid, v) && i < j < |events| && events[j].Store? && events[j].r == r
  }

  ghost predicate ReaderOrigin(partitions: nat, events: seq<Move>, k: nat, rd: Reader)
  {
    && (rd.Holding? ==> exists i :: Queried(partitions, events, i, k, rd.orderId, rd.view))
    && (rd.Answered? ==> exists i, r :: Queried(partitions, events, i, r, rd.orderId, rd.view))
  }

  /** Everything held, cached or answered goes back to a read. */
  ghost predicate Origins(partitions: nat, events: seq<Move>, s: Site)
  {
    && (forall k :: k in s.readers ==> ReaderOrigin(partitions, events, k, s.readers[k]))
    && (forall oid :: oid in s.c.cache ==> exists i, j, r :: Cached(partitions, events, i, j, r, oid, s.c.cache[oid]))
  }

  predicate HoldsView(s: Site, r: nat, oid: Id, v: View)
  {
    r in s.readers && s.readers[r].Holding? && s.readers[r].orderId == oid && s.readers[r].view == v
  }

  /** What a step can do to a reader. */
  ghost predicate ReaderMoves(s: Site, ev: Move, k: nat, rd: Reader)
  {
    && (rd.Holding? ==>
          || HoldsView(s, k, rd.orderId, rd.view)
          || (ev == Query(k) && rd.view == ViewOf(s.c.tables, rd.orderId) && rd.view.row.Some?))
    && (rd.Answered? ==>
          || (k in s.readers && s.readers[k] == rd)
          || (rd.orderId in s.c.cache && s.c.cache[rd.orderId] == rd.view)
          || HoldsView(s, k, rd.orderId, rd.view))
  }

  /** What a step can do to a cached entry. */
  ghost predicate EntryMoves(s: Site, ev: Move, oid: Id, v: View)
  {
    || (oid in s.c.cache && s.c.cache[oid] == v)
    || (ev.Store? && HoldsView(s, ev.r, oid, v))
  }

  lemma {:induction false} NextMoves(s: Site, ev: Move)
    ensures var s' := Next(s, ev);
            && (forall k :: k in s'.readers ==> ReaderMoves(s, ev, k, s'.readers[k]))
            && (forall oid :: oid in s'.c.cache ==> EntryMoves(s, ev, oid, s'.c.cache[oid]))
  {
    if ev.Consume? {
      ConsumerEffects(s, ev.action);
    }
  }

  lemma {:induction false} QueriedStays(
      partitions: nat, events: seq<Move>, ev: Move, i: nat, r: nat, oid: Id, v: View)
    requires Queried(partitions, events, i, r, oid, v)
    ensures Queried(partitions, events + [ev], i, r, oid, v)
  {
    assert (events + [ev])[..i] == events[..i];
  }

  lemma {:induction false} ReaderOriginStays(partitions: nat, events: seq<Move>, s: Site, ev: Move, k: nat, rd: Reader)
    requires Origins(partitions, events, s) && s == Run(partitions, events) && ReaderMoves(s, ev, k, rd)
    ensures ReaderOrigin(partitions, events + [ev], k, rd)
  {
    var all := events + [ev];
    assert all[..|events|] == events;
    if k in s.readers {
      assert ReaderOrigin(partitions, events, k, s.readers[k]);
    }
    if rd.Holding? {
      if ev == Query(k) && rd.view == ViewOf(s.c.tables, rd.orderId) && rd.view.row.Some? {
        assert Queried(partitions, all, |events|, k, rd.orderId, rd.view);
      } else {
        var i: nat :| Queried(partitions, events, i, k, rd.orderId, rd.view);
        QueriedStays(partitions, events, ev, i, k, rd.orderId, rd.view);
      }
    }
    if rd.Answered? {
      var i: nat, r: nat := AnswerOrigin(partitions, events, s, ev, k, rd);
      QueriedStays(partitions, events, ev, i, r, rd.orderId, rd.view);
    }
  }

  lemma {:induction false} AnswerOrigin(partitions: nat, events: seq<Move>, s: Site, ev: Move, k: nat, rd: Reader)
      returns (i: nat, r: nat)
    requires Origins(partitions, events, s) && ReaderMoves(s, ev, k, rd) && rd.Answered?
    ensures Queried(partitions, events, i, r, rd.orderId, rd.view)
  {
    if rd.orderId in s.c.cache && s.c.cache[rd.orderId] == rd.view {
      var j: nat;
      i, j, r :| Cached(partitions, events, i, j, r, rd.orderId, s.c.cache[rd.orderId]);
    } else {
      assert ReaderOrigin(partitions, events, k, s.readers[k]);
      i, r :| Queried(partitions, events, i, r, rd.orderId, rd.view);
    }
  }

  lemma {:induction false} EntryOriginStays(partitions: nat, events: seq<Move>, s: Site, ev: Move, oid: Id, v: View)
    requires Origins(partitions, events, s) && EntryMoves(s, ev, oid, v)
    ensures exists i, j, r :: Cached(partitions, events + [ev], i, j, r, oid, v)
  {
    var all := events + [ev];
    if oid in s.c.cache && s.c.cache[oid] == v {
      var i: nat, j: nat, r: nat :| Cached(partitions, events, i, j, r, oid, v);
      QueriedStays(partitions, events, ev, i, r, oid, v);
      assert Cached(partitions, all, i, j, r, oid, v);
    } else {
      assert ReaderOrigin(partitions, events, ev.r, s.readers[ev.r]);
      var i: nat :| Queried(partitions, events, i, ev.r, oid, v);
      QueriedStays(partitions, events, ev, i, ev.r, oid, v);
      assert Cached(partitions, all, i, |events|, ev.r, oid, v);
    }
  }

  lemma {:induction false} OriginsStep(partitions: nat, events: seq<Move>, s: Site, ev: Move, s': Site)
    requires Origins(partitions, events, s) && s == Run(partitions, events)
    requires forall k :: k in s'.readers ==> ReaderMoves(s, ev, k, s'.readers[k])
    requires forall oid :: oid in s'.c.cache ==> EntryMoves(s, ev, oid, s'.c.cache[oid])
    ensures Origins(partitions, events + [ev], s')
  {
    forall k | k in s'.readers ensures ReaderOrigin(partitions, events + [ev], k, s'.readers[k]) {
      ReaderOriginStays(partitions, events, s, ev, k, s'.readers[k]);
    }
    forall oid | oid in s'.c.cache
      ensures exists i, j, r :: Cached(partitions, events + [ev], i, j, r, oid, s'.c.cache[oid])
    {
      EntryOriginStays(partitions, events, s, ev, oid, s'.c.cache[oid]);
    }
  }

  lemma {:induction false} RunHasOrigins(partitions: nat, events: seq<Move>) returns (s: Site)
    ensures s == Run(partitions, events) && Origins(partitions, events, s)
  {
    if events == [] {
      s := Start(partitions);
    } else {
      var init, ev := events[..|events| - 1], events[|events| - 1];
      var before := RunHasOrigins(partitions, init);
      assert init + [ev] == events;
      s := OriginsNext(partitions, init, ev, before);
    }
  }

  lemma {:induction false} OriginsNext(partitions: nat, events: seq<Move>, ev: Move, s: Site) returns (s': Site)
    requires s == Run(partitions, events) && Origins(partitions, events, s)
    ensures s' == Run(partitions, events + [ev]) && Origins(partitions, events + [ev], s')
  {
    s' := Next(s, ev);
    NextMoves(s, ev);
    FoldSnoc(Next, Start(partitions), events, ev);
    OriginsStep(partitions, events, s, ev, s');
  }

  lemma {:induction false} TablesStayConsistent(partitions: nat, events: seq<Move>)
    ensures Consistent(Run(partitions, events).c.tables)
  {
    if events == [] {
      TotalsAlwaysMatch([]);
    } else {
      var s, ev := Run(partitions, events[..|events| - 1]), events[|events| - 1];
      TablesStayConsistent(partitions, events[..|events| - 1]);
      TablesMove(s, ev);
      if ev.Consume? && Commits(s, ev.action) {
        ProjectKeepsConsistent(s.c.tables, s.c.phase.m.event);
      }
    }
  }

  lemma {:induction false} TablesMove(s: Site, ev: Move)
    ensures Next(s, ev).c.tables ==
            if ev.Consume? && Commits(s, ev.action) then Projected(s.c.tables, s.c.phase.m.event) else s.c.tables
  {
    if ev.Consume? {
      ConsumerEffects(s, ev.action);
    }
  }

  /** Under every interleaving, with any failures, an answered row was the committed row at an earlier moment of the
      run, when some reader queried it, and its total matches its items. */
  lemma {:induction false} AnswersWereTrue(partitions: nat, events: seq<Move>, r: nat)
    requires r in Run(partitions, events).readers && Run(partitions, events).readers[r].Answered?
    ensures var rd := Run(partitions, events).readers[r];
            && (exists i, k :: 0 <= i < |events| && events[i] == Query(k) &&
                  rd.view == ViewOf(Run(partitions, events[..i]).c.tables, rd.orderId))
            && rd.view.row.Some? && rd.view.row.value.total == SumLines(rd.view.items)
  {
    var s := RunHasOrigins(partitions, events);
    var rd := s.readers[r];
    assert ReaderOrigin(partitions, events, r, rd);
    var i: nat, k: nat :| Queried(partitions, events, i, k, rd.orderId, rd.view);
    var t := Run(partitions, events[..i]).c.tables;
    TablesStayConsistent(partitions, events[..i]);
    ConsistentViews(t);
    assert ConsistentView(ViewOf(t, rd.orderId));
  }

  // ---------------------------------------------------------------- exactly when a cached entry is stale

  /** The events whose projection was committed from move `i` on, in order. */
  ghost function CommittedSince(partitions: nat, events: seq<Move>, i: nat): seq<Event>
  {
    if |events| <= i then [] else
      var init, ev := events[..|events| - 1], events[|events| - 1];
      var s := Run(partitions, init);
      if ev.Consume? && Commits(s, ev.action) then CommittedSince(partitions, init, i) + [s.c.phase.m.event]
      else CommittedSince(partitions, init, i)
  }

  lemma {:induction false} TablesSince(partitions: nat, events: seq<Move>, i: nat)
    requires i <= |events|
    ensures Run(partitions, events).c.tables ==
            ProjectAll(Run(partitions, events[..i]).c.tables, CommittedSince(partitions, events, i))
  {
    if i < |events| {
      var init := events[..|events| - 1];
      assert init[..i] == events[..i];
      TablesSince(partitions, init, i);
      TablesSinceStep(partitions, events, i, Run(partitions, events[..i]).c.tables);
    } else {
      assert events[..i] == events;
    }
  }

  lemma {:induction false} TablesSinceStep(partitions: nat, events: seq<Move>, i: nat, t: Tables)
    requires i < |events|
    requires Run(partitions, events[..|events| - 1]).c.tables ==
             ProjectAll(t, CommittedSince(partitions, events[..|events| - 1], i))
    ensures Run(partitions, events).c.tables == ProjectAll(t, CommittedSince(partitions, events, i))
  {
    var init, ev := events[..|events| - 1], events[|events| - 1];
    var s := Run(partitions, init);
    TablesMove(s, ev);
    if ev.Consume? && Commits(s, ev.action) {
      FoldSnoc(Projected, t, CommittedSince(partitions, init, i), s.c.phase.m.event);
    }
  }

  /** In any run, whatever lies between and whatever failed: a cached entry is what some reader saw in Postgres at `i`
      and stored at `j`, and it is stale if and only if the projections of the order since `i` have changed what is
      shown. */
  lemma {:induction false} CachedEntryIsStaleIff(partitions: nat, events: seq<Move>, oid: Id)
      returns (i: nat, j: nat, r: nat)
    requires oid in Run(partitions, events).c.cache
    ensures var s := Run(partitions, events);
            && Cached(partitions, events, i, j, r, oid, s.c.cache[oid])
            && (s.c.cache[oid] != ViewOf(s.c.tables, oid) <==>
                  ProjectLog(s.c.cache[oid], OrderLog(CommittedSince(partitions, events, i), oid)) != s.c.cache[oid])
  {
    var s := RunHasOrigins(partitions, events);
    i, j, r :| Cached(partitions, events, i, j, r, oid, s.c.cache[oid]);
    TablesSince(partitions, events, i);
    ProjectAllIsLocal(Run(partitions, events[..i]).c.tables, CommittedSince(partitions, events, i), oid);
  }

  // ---------------------------------------------------------------- coherence

  /** No reader's interval from Postgres read to cache write spans a projection commit and its cache delete. */
  ghost predicate NoSpan(s: Site, ev: Move)
  {
    ev.Consume? && Deletes(s, ev.action) ==>
      forall r :: r in s.readers && s.readers[r].Holding? && s.readers[r].crossed ==>
        s.readers[r].orderId != s.c.phase.m.event.orderId
  }

  ghost predicate ReaderCoherent(s: Site, rd: Reader)
  {
    rd.Holding? ==>
        (!rd.crossed ==> rd.view == ViewOf(s.c.tables, rd.orderId)) && (rd.crossed ==> rd.orderId in s.dirty)
  }

  ghost predicate Coherent(s: Site)
  {
    && (forall oid :: oid in s.c.cache && oid !in s.dirty ==> s.c.cache[oid] == ViewOf(s.c.tables, oid))
    && (forall r :: r in s.readers ==> ReaderCoherent(s, s.readers[r]))
  }

  lemma {:induction false} CommitIsCoherent(s: Site, a: Action)
    requires Coherent(s) && Commits(s, a)
    ensures Coherent(ConsumerStep(s, a))
  {
    var s' := ConsumerStep(s, a);
    var e := s.c.phase.m.event;
    ConsumerEffects(s, a);
    forall oid | oid in s'.c.cache && oid !in s'.dirty ensures s'.c.cache[oid] == ViewOf(s'.c.tables, oid) {
      ProjectIsLocal(s.c.tables, e, oid);
    }
    forall r | r in s'.readers ensures ReaderCoherent(s', s'.readers[r]) {
      assert ReaderCoherent(s, s.readers[r]);
      ProjectIsLocal(s.c.tables, e, s.readers[r].orderId);
    }
  }

  lemma {:induction false} OtherStepIsCoherent(s: Site, a: Action)
    requires Coherent(s) && !Commits(s, a) && NoSpan(s, Consume(a))
    ensures Coherent(ConsumerStep(s, a))
  {
    var s' := ConsumerStep(s, a);
    ConsumerEffects(s, a);
    forall r | r in s'.readers ensures ReaderCoherent(s', s'.readers[r]) {
      assert ReaderCoherent(s, s.readers[r]);
    }
  }

  lemma {:induction false} StoreIsCoherent(s: Site, r: nat, s': Site)
    requires Coherent(s) && r in s.readers && s.readers[r].Holding? && s'.c.tables == s.c.tables && s'.dirty == s.dirty
    requires s'.c.cache == s.c.cache || s'.c.cache == s.c.cache[s.readers[r].orderId := s.readers[r].view]
    requires forall k :: k in s'.readers && s'.readers[k].Holding? ==> k in s.readers && s'.readers[k] == s.readers[k]
    ensures Coherent(s')
  {
    assert ReaderCoherent(s, s.readers[r]);
    forall k | k in s'.readers ensures ReaderCoherent(s', s'.readers[k]) {
      if s'.readers[k].Holding? {
        assert ReaderCoherent(s, s.readers[k]);
      }
    }
  }

  lemma ReadersStayCoherent(s: Site, s': Site)
    requires Coherent(s) && s'.c.tables == s.c.tables && s'.dirty == s.dirty
    requires forall oid :: oid in s'.c.cache ==> oid in s.c.cache && s'.c.cache[oid] == s.c.cache[oid]
    requires forall r :: r in s'.readers ==> ReaderCoherent(s, s'.readers[r])
    ensures Coherent(s')
  {
  }

  lemma {:induction false} ReaderStepIsCoherent(s: Site, ev: Move)
    requires Coherent(s) && !ev.Consume? && !ev.Store?
    ensures Coherent(Next(s, ev))
  {
    var s' := Next(s, ev);
    ReaderStepShape(s, ev);
    forall r | r in s'.readers ensures ReaderCoherent(s, s'.readers[r]) {
      assert r in s.readers ==> ReaderCoherent(s, s.readers[r]);
    }
    ReadersStayCoherent(s, s');
  }

  lemma ReaderStepShape(s: Site, ev: Move)
    requires !ev.Consume? && !ev.Store?
    ensures var s' := Next(s, ev);
            && s'.c.tables == s.c.tables && s'.dirty == s.dirty
            && (forall oid :: oid in s'.c.cache ==> oid in s.c.cache && s'.c.cache[oid] == s.c.cache[oid])
            && (forall r :: r in s'.readers && s'.readers[r].Holding? ==>
                  || (r in s.readers && s.readers[r] == s'.readers[r])
                  || (s'.readers[r].view == ViewOf(s.c.tables, s'.readers[r].orderId) && !s'.readers[r].crossed))
  {
  }

  lemma {:induction false} NextIsCoherent(s: Site, ev: Move)
    requires Coherent(s) && NoSpan(s, ev)
    ensures Coherent(Next(s, ev))
  {
    if ev.Store? {
      if ev.r in s.readers && s.readers[ev.r].Holding? {
        StoreIsCoherent(s, ev.r, Next(s, ev));
      }
    } else if !ev.Consume? {
      ReaderStepIsCoherent(s, ev);
    } else if Commits(s, ev.action) {
      CommitIsCoherent(s, ev.action);
    } else {
      OtherStepIsCoherent(s, ev.action);
    }
  }

  ghost predicate NoSpanRun(partitions: nat, events: seq<Move>)
  {
    forall i :: 0 <= i < |events| ==> NoSpan(Run(partitions, events[..i]), events[i])
  }

  lemma {:induction false} NoSpanInit(partitions: nat, events: seq<Move>)
    requires events != [] && NoSpanRun(partitions, events)
    ensures NoSpanRun(partitions, events[..|events| - 1])
  {
    var init := events[..|events| - 1];
    forall i | 0 <= i < |init| ensures NoSpan(Run(partitions, init[..i]), init[i]) {
      assert init[..i] == events[..i];
    }
  }

  /** Without such a span a cached entry equals the Postgres row for every order that has not been projected since its
      last cache delete, whatever crashed or failed. */
  lemma {:induction false} CacheIsCoherent(partitions: nat, events: seq<Move>)
    requires NoSpanRun(partitions, events)
    ensures Coherent(Run(partitions, events))
  {
    if events != [] {
      var n := |events| - 1;
      NoSpanInit(partitions, events);
      CacheIsCoherent(partitions, events[..n]);
      NextIsCoherent(Run(partitions, events[..n]), events[n]);
    }
  }

  /** No crash between a projection and its cache delete, no delete that fails, no projection whose reply is lost. */
  ghost predicate Tidy(s: Site, ev: Move)
  {
    ev.Consume? ==> match ev.action
      case Crash => !IsAt(s.c, AtInvalidate)
      case ProjectStep(outcome) => IsAt(s.c, AtProject) ==> outcome != LostReply
      case Invalidate(outcome) => IsAt(s.c, AtInvalidate) ==> outcome != Raised
      case _ => true
  }

  ghost predicate TidyRun(partitions: nat, events: seq<Move>)
  {
    forall i :: 0 <= i < |events| ==> Tidy(Run(partitions, events[..i]), events[i])
  }

  lemma {:induction false} TidyInit(partitions: nat, events: seq<Move>)
    requires events != [] && TidyRun(partitions, events)
    ensures TidyRun(partitions, events[..|events| - 1])
  {
    var init := events[..|events| - 1];
    forall i | 0 <= i < |init| ensures Tidy(Run(partitions, init[..i]), init[i]) {
      assert init[..i] == events[..i];
    }
  }

  /** In tidy runs the only order that can be out of step is the one between its projection and its cache delete. */
  lemma {:induction false} DirtyOnlyBetween(partitions: nat, events: seq<Move>)
    requires TidyRun(partitions, events)
    ensures var s := Run(partitions, events);
            s.dirty == if IsAt(s.c, AtInvalidate) then {s.c.phase.m.event.orderId} else {}
  {
    if events != [] {
      var n := |events| - 1;
      TidyInit(partitions, events);
      DirtyOnlyBetween(partitions, events[..n]);
      TidyStep(Run(partitions, events[..n]), events[n]);
    }
  }

  lemma TidyStep(s: Site, ev: Move)
    requires Tidy(s, ev) && s.dirty == if IsAt(s.c, AtInvalidate) then {s.c.phase.m.event.orderId} else {}
    ensures var s' := Next(s, ev); s'.dirty == if IsAt(s'.c, AtInvalidate) then {s'.c.phase.m.event.orderId} else {}
  {
  }

  /** In tidy runs without a spanning reader every cached entry equals its Postgres row, unless the consumer is between
      the projection of that order and its cache delete. */
  lemma {:induction false} CachedEntriesAreCurrent(partitions: nat, events: seq<Move>, oid: Id)
    requires NoSpanRun(partitions, events) && TidyRun(partitions, events)
    requires oid in Run(partitions, events).c.cache
    ensures var s := Run(partitions, events);
            || s.c.cache[oid] == ViewOf(s.c.tables, oid)
            || (IsAt(s.c, AtInvalidate) && s.c.phase.m.event.orderId == oid)
  {
    CacheIsCoherent(partitions, events);
    DirtyOnlyBetween(partitions, events);
  }

  // ---------------------------------------------------------------- a reader's own steps

  lemma {:induction false} AskSteps(s: Site, r: nat, oid: Id)
    requires r !in s.readers && oid !in s.c.cache
    ensures Next(Next(s, Ask(r, oid)), LookUp(r)) == WithReader(s, r, Missed(oid))
  {
    assert s.readers[r := Asked(oid)][r := Missed(oid)] == s.readers[r := Missed(oid)];
  }

  lemma {:induction false} QueryStep(s: Site, r: nat, oid: Id)
    requires oid in s.c.tables.orders
    ensures Next(WithReader(s, r, Missed(oid)), Query(r)) ==
        WithReader(s, r, Holding(oid, ViewOf(s.c.tables, oid), false))
  {
    var holding := Holding(oid, ViewOf(s.c.tables, oid), false);
    assert s.readers[r := Missed(oid)][r := holding] == s.readers[r := holding];
  }

  lemma {:induction false} HitSteps(s: Site, r: nat, oid: Id)
    requires r !in s.readers && oid in s.c.cache
    ensures Next(Next(s, Ask(r, oid)), LookUp(r)) == WithReader(s, r, Answered(oid, s.c.cache[oid]))
  {
    var answered := Answered(oid, s.c.cache[oid]);
    assert s.readers[r := Asked(oid)][r := answered] == s.readers[r := answered];
  }

  lemma {:induction false} NotFoundStep(s: Site, r: nat, oid: Id)
    requires oid !in s.c.tables.orders
    ensures Next(WithReader(s, r, Missed(oid)), Query(r)) == WithReader(s, r, NotFound(oid))
  {
    assert s.readers[r := Missed(oid)][r := NotFound(oid)] == s.readers[r := NotFound(oid)];
  }

  lemma {:induction false} StoreStep(s: Site, r: nat, oid: Id, view: View, outcome: Outcome)
    ensures var s' := if outcome == Raised then s else s.(c := s.c.(cache := s.c.cache[oid := view]));
            Next(WithReader(s, r, Holding(oid, view, false)), Store(r, outcome)) ==
            WithReader(s', r, if outcome == Ok then Answered(oid, view) else Broken(oid))
  {
    var held, rd := Holding(oid, view, false), if outcome == Ok then Answered(oid, view) else Broken(oid);
    assert s.readers[r := held][r := rd] == s.readers[r := rd];
  }

  lemma FinishedStays(s: Site, r: nat, outcome: Outcome)
    requires r in s.readers && (s.readers[r].Answered? || s.readers[r].NotFound?)
    ensures Next(s, Query(r)) == s && Next(s, Store(r, outcome)) == s
  {
  }
}
