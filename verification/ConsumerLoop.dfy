/** The body of the `consume` loop on real state (consumers/main.py), as a run of the consumer machine. */
module ConsumerLoop {
  import opened Consumer
  import opened Events
  import opened EventStore
  import opened Postgres
  import opened ReadModel
  import opened Seqs
  import opened Topics

  /** How the outside calls of one iteration end. `commit` is also the commit of a skipped message, `close` the commit
      after the queue was used. */
  datatype Calls = Calls(
    project: seq<Outcome>, invalidate: Outcome, mark: Outcome, stamp: Outcome, commit: Outcome,
    send: Outcome, close: Outcome)

  /** Three attempts as one projection step. */
  function Overall(outcomes: seq<Outcome>): Outcome
  {
    if Ok in outcomes then Ok else if NeverReached(outcomes) then Raised else LostReply
  }

  ghost function Stepper(topic: Topic): (State, Action) -> State
  {
    (c: State, a: Action) => Step(topic, c, a)
  }

  /** The end of the try block, from the stamp on. */
  ghost function StampSteps(topic: Topic, c: State, o: Calls): State
  {
    Step(topic, Step(topic, c, Stamp(o.stamp)), Commit(o.commit))
  }

  /** The calls to Redis that follow a projection. */
  ghost function RedisSteps(topic: Topic, c: State, o: Calls): State
  {
    Step(topic, Step(topic, c, Invalidate(o.invalidate)), Mark(o.mark))
  }

  /** The try block, step by step. */
  ghost function TrySteps(topic: Topic, c: State, o: Calls): State
  {
    StampSteps(topic, RedisSteps(topic, Step(topic, c, ProjectStep(Overall(o.project))), o), o)
  }

  /** After an exception nothing more of the try block happens. */
  lemma ExceptionSkips(topic: Topic, c: State, o: Calls)
    requires IsAt(c, AtDlq)
    ensures RedisSteps(topic, c, o) == c && StampSteps(topic, c, o) == c
  {
  }

  /** A message that is skipped is only committed. */
  lemma SkipCommits(topic: Topic, c: State, o: Calls)
    requires IsAt(c, AtClose) && c.phase.p < |c.committed|
    ensures TrySteps(topic, c, o) == AfterCommit(c, o.commit)
  {
  }

  /** With that the iteration is over. */
  lemma {:induction false} SkipIs(topic: Topic, c: State, o: Calls)
    requires IsAt(c, AtClose) && c.phase.p < |c.committed|
    ensures CloseSteps(topic, TrySteps(topic, c, o), o) == AfterCommit(c, o.commit)
  {
    SkipCommits(topic, c, o);
    CloseAfterNormalEnd(topic, AfterCommit(c, o.commit), o);
  }

  /** The rest of the iteration after the try block. */
  ghost function CloseSteps(topic: Topic, c: State, o: Calls): State
  {
    Step(topic, Step(topic, c, SendDlq(o.send)), Commit(o.close))
  }

  lemma CloseAfterNormalEnd(topic: Topic, c: State, o: Calls)
    requires c.phase.Polling?
    ensures CloseSteps(topic, c, o) == c
  {
  }

  lemma CloseAfterException(topic: Topic, c: State, o: Calls)
    requires IsAt(c, AtDlq) && c.phase.p < |c.committed|
    ensures CloseSteps(topic, c, o) == AfterCommit(AfterSend(c, o.send), o.close)
  {
  }

  /** One iteration as actions of the machine. */
  function Iteration(p: nat, o: Calls): seq<Action>
  {
    [Fetch(p), Check, ProjectStep(Overall(o.project)), Invalidate(o.invalidate), Mark(o.mark), Stamp(o.stamp),
     Commit(o.commit), SendDlq(o.send), Commit(o.close)]
  }

  lemma {:induction false} IterationFold(f: (State, Action) -> State, c: State, p: nat, o: Calls)
    ensures Fold(f, c, Iteration(p, o)) ==
            var c3 := f(f(f(c, Fetch(p)), Check), ProjectStep(Overall(o.project)));
            var c7 := f(f(f(f(c3, Invalidate(o.invalidate)), Mark(o.mark)), Stamp(o.stamp)), Commit(o.commit));
            f(f(c7, SendDlq(o.send)), Commit(o.close))
  {
    var all := Iteration(p, o);
    assert all[..0] == [] && all[..9] == all;
    FoldPrefix(f, c, all, 0);
    FoldPrefix(f, c, all, 1);
    FoldPrefix(f, c, all, 2);
    FoldPrefix(f, c, all, 3);
    FoldPrefix(f, c, all, 4);
    FoldPrefix(f, c, all, 5);
    FoldPrefix(f, c, all, 6);
    FoldPrefix(f, c, all, 7);
    FoldPrefix(f, c, all, 8);
  }

  lemma {:induction false} IterationIs(topic: Topic, c: State, p: nat, o: Calls, off: nat, m: Message)
    requires c.phase.Polling? && p < |topic| && p < |c.committed| && off == c.committed[p] < |topic[p]| &&
        m == topic[p][off]
    ensures var at := if m.event.eventId in c.processed then AtClose else AtProject;
            Fold(Stepper(topic), c, Iteration(p, o)) ==
            CloseSteps(topic, TrySteps(topic, c.(phase := Busy(p, off, m, at)), o), o)
  {
    IterationFold(Stepper(topic), c, p, o);
  }

  // ---------------------------------------------------------------- how far an iteration gets

  predicate Finishes(e: Event)
  {
    e.payload.OrderCancelled? || e.payload.OrderDelivered?
  }

  /** The projection returns normally: some attempt does, and a line finds its order. */
  predicate Projects(t: Tables, e: Event, o: Calls)
  {
    Ok in o.project && (e.payload.ItemAdded? ==> e.orderId in t.orders)
  }

  predicate Marks(t: Tables, e: Event, o: Calls)
  {
    Projects(t, e, o) && o.invalidate == Ok && o.mark == Ok
  }

  predicate GetsToCommit(t: Tables, e: Event, o: Calls)
  {
    Marks(t, e, o) && (Finishes(e) ==> o.stamp == Ok)
  }

  // ---------------------------------------------------------------- an iteration in plain terms

  /** The try block: each call happens exactly when all before it returned normally. */
  ghost function Tried(c: State, p: nat, m: Message, o: Calls): State
    requires p < |c.committed|
  {
    var t, e := c.tables, m.event;
    var lands := !NeverReached(o.project) && (e.payload.ItemAdded? ==> e.orderId in t.orders);
    c.(tables := if NeverReached(o.project) then t else Projected(t, e),
       projected := if lands then c.projected + {e} else c.projected,
       cache := if Projects(t, e, o) && o.invalidate != Raised then c.cache - {e.orderId} else c.cache,
       processed := if Projects(t, e, o) && o.invalidate == Ok && o.mark != Raised
                    then c.processed + {e.eventId} else c.processed,
       committed := if GetsToCommit(t, e, o) && o.commit != Raised
                    then c.committed[p := c.committed[p] + 1] else c.committed)
  }

  /** After an exception the message goes to the queue, unless that cannot be reached, and is committed anyway. */
  ghost function Processed(c: State, p: nat, m: Message, o: Calls): State
    requires p < |c.committed|
  {
    var tried := Tried(c, p, m, o);
    if GetsToCommit(c.tables, m.event, o) && o.commit == Ok then tried else
      tried.(dlq := if o.send != Raised then c.dlq[c.sends := m] else c.dlq,
             sends := if o.send != Raised then c.sends + 1 else c.sends,
             committed := if o.close != Raised then c.committed[p := c.committed[p] + 1] else tried.committed)
  }

  /** A message that was processed before is only committed. */
  ghost function Skipped(c: State, p: nat, o: Calls): State
    requires p < |c.committed|
  {
    c.(committed := if o.commit != Raised then c.committed[p := c.committed[p] + 1] else c.committed)
  }

  // ---------------------------------------------------------------- it is a run of the machine

  lemma {:induction false} ProjectIs(topic: Topic, c: State, p: nat, off: nat, m: Message, o: Calls)
    requires c.phase == Busy(p, off, m, AtProject)
    ensures var e := m.event;
            var lands := !NeverReached(o.project) && (e.payload.ItemAdded? ==> e.orderId in c.tables.orders);
            Step(topic, c, ProjectStep(Overall(o.project))) ==
            c.(tables := if NeverReached(o.project) then c.tables else Projected(c.tables, e),
               projected := if lands then c.projected + {e} else c.projected,
               phase := Busy(p, off, m, if Projects(c.tables, e, o) then AtInvalidate else AtDlq))
  {
    assert Project(c.tables, m.event).Some? <==> (m.event.payload.ItemAdded? ==> m.event.orderId in c.tables.orders);
  }

  lemma {:induction false} RedisIs(topic: Topic, c: State, p: nat, off: nat, m: Message, o: Calls)
    requires c.phase == Busy(p, off, m, AtInvalidate)
    ensures RedisSteps(topic, c, o) ==
            c.(cache := if o.invalidate != Raised then c.cache - {m.event.orderId} else c.cache,
               processed := if o.invalidate == Ok && o.mark != Raised
                            then c.processed + {m.event.eventId} else c.processed,
               phase := Busy(p, off, m, if o.invalidate == Ok && o.mark == Ok then AtStamp else AtDlq))
  {
  }

  lemma {:induction false} StampIs(topic: Topic, c: State, p: nat, off: nat, m: Message, o: Calls)
    requires c.phase == Busy(p, off, m, AtStamp) && p < |c.committed|
    ensures var stamped := Finishes(m.event) ==> o.stamp == Ok;
            StampSteps(topic, c, o) ==
            c.(committed := if stamped && o.commit != Raised then c.committed[p := off + 1] else c.committed,
               phase := if stamped && o.commit == Ok then Polling else Busy(p, off, m, AtDlq))
  {
  }

  lemma {:induction false} TryIs(topic: Topic, c: State, p: nat, off: nat, m: Message, o: Calls)
    requires c.phase == Busy(p, off, m, AtProject) && p < |c.committed| && off == c.committed[p]
    ensures TrySteps(topic, c, o) ==
            Tried(c, p, m, o).(phase := if GetsToCommit(c.tables, m.event, o) && o.commit == Ok then Polling
                                        else Busy(p, off, m, AtDlq))
  {
    var c1 := Step(topic, c, ProjectStep(Overall(o.project)));
    ProjectIs(topic, c, p, off, m, o);
    if !Projects(c.tables, m.event, o) {
      ExceptionSkips(topic, c1, o);
    } else {
      RedisIs(topic, c1, p, off, m, o);
      var c2 := RedisSteps(topic, c1, o);
      if o.invalidate == Ok && o.mark == Ok {
        StampIs(topic, c2, p, off, m, o);
      } else {
        ExceptionSkips(topic, c2, o);
      }
    }
  }

  lemma {:induction false} ProcessedIs(topic: Topic, c: State, tried: State, p: nat, off: nat, m: Message, o: Calls)
    requires c.phase == Polling && p < |c.committed| && off == c.committed[p]
    requires tried == Tried(c, p, m, o).(phase := if GetsToCommit(c.tables, m.event, o) && o.commit == Ok then Polling
                                                  else Busy(p, off, m, AtDlq))
    ensures CloseSteps(topic, tried, o) == Processed(c, p, m, o)
  {
    if GetsToCommit(c.tables, m.event, o) && o.commit == Ok {
      CloseAfterNormalEnd(topic, tried, o);
    } else {
      CloseIs(topic, tried, p, off, m, o);
      TriedOffsets(c, p, off, m, o);
    }
  }

  lemma {:induction false} CloseIs(topic: Topic, c: State, p: nat, off: nat, m: Message, o: Calls)
    requires c.phase == Busy(p, off, m, AtDlq) && p < |c.committed|
    ensures CloseSteps(topic, c, o) ==
            c.(dlq := if o.send != Raised then c.dlq[c.sends := m] else c.dlq,
               sends := if o.send != Raised then c.sends + 1 else c.sends,
               committed := if o.close != Raised then c.committed[p := off + 1] else c.committed,
               phase := Polling)
  {
    CloseAfterException(topic, c, o);
  }

  lemma {:induction false} TriedOffsets(c: State, p: nat, off: nat, m: Message, o: Calls)
    requires p < |c.committed| && off == c.committed[p]
    ensures Tried(c, p, m, o).committed[p := off + 1] == c.committed[p := off + 1]
  {
  }

  /** One iteration, on every path, is a run of the machine. */
  lemma {:induction false} IterationIsRun(topic: Topic, c: State, p: nat, o: Calls)
    requires c.phase.Polling? && p < |topic| && p < |c.committed| && c.committed[p] < |topic[p]|
    ensures var m := topic[p][c.committed[p]];
            Fold(Stepper(topic), c, Iteration(p, o)) ==
            if m.event.eventId in c.processed then Skipped(c, p, o) else Processed(c, p, m, o)
  {
    var off := c.committed[p];
    var m := topic[p][off];
    IterationIs(topic, c, p, o, off, m);
    if m.event.eventId in c.processed {
      SkipIs(topic, c.(phase := Busy(p, off, m, AtClose)), o);
    } else {
      ProcessedRun(topic, c, p, off, m, o);
    }
  }

  lemma {:induction false} ProcessedRun(topic: Topic, c: State, p: nat, off: nat, m: Message, o: Calls)
    requires c.phase == Polling && p < |c.committed| && off == c.committed[p]
    ensures CloseSteps(topic, TrySteps(topic, c.(phase := Busy(p, off, m, AtProject)), o), o) == Processed(c, p, m, o)
  {
    var busy := c.(phase := Busy(p, off, m, AtProject));
    TryIs(topic, busy, p, off, m, o);
    ProcessedIs(topic, c, TrySteps(topic, busy, o), p, off, m, o);
  }

  // ---------------------------------------------------------------- the consumer object

  class ProjectionConsumer {
    const db: Database
    const store: Store
    var committed: seq<nat>
    var processed: set<Id>
    var cache: map<Id, View>
    var dlq: map<nat, Message>
    var sends: nat
    ghost var projected: set<Event>

    constructor (db: Database, store: Store, partitions: nat)
      requires db.Contents() == EMPTY
      ensures this.db == db && this.store == store && Value() == Start(partitions)
    {
      this.db, this.store, committed := db, store, seq(partitions, _ => 0);
      processed, cache, dlq, sends, projected := {}, map[], map[], 0, {};
    }

    /** The consumer between two iterations. */
    ghost function Value(): State
      reads this, db
    {
      State(committed, Polling, db.Contents(), processed, cache, dlq, sends, projected)
    }

    /** Expiry dates before and after: all documents of the order get one if `stamped`, and nothing else changes. */
    twostate predicate Expires(oid: Id, stamped: bool)
      reads this, store
    {
      && Bodies(store.docs) == old(Bodies(store.docs)) && |store.docs| == |old(store.docs)|
      && forall i :: 0 <= i < |store.docs| ==>
           (store.docs[i].expires <==>
              old(store.docs)[i].expires || (stamped && store.docs[i].event.orderId == oid))
    }

    method TryProject(e: Event, outcomes: seq<Outcome>) returns (ok: bool)
      requires |outcomes| == 3
      modifies this`projected, db
      ensures db.Contents() == if NeverReached(outcomes) then old(db.Contents()) else Projected(old(db.Contents()), e)
      ensures projected ==
              if !NeverReached(outcomes) && (e.payload.ItemAdded? ==> e.orderId in old(db.orders))
              then old(projected) + {e} else old(projected)
      ensures ok <==> Ok in outcomes && (e.payload.ItemAdded? ==> e.orderId in old(db.orders))
    {
      ok := db.ProjectWithRetry(e, outcomes);
      if !NeverReached(outcomes) && (e.payload.ItemAdded? ==> e.orderId in old(db.orders)) {
        projected := projected + {e};
      }
    }

    method InvalidateAndMark(e: Event, o: Calls) returns (ok: bool)
      modifies this`cache, this`processed
      ensures cache == if o.invalidate != Raised then old(cache) - {e.orderId} else old(cache)
      ensures processed ==
              if o.invalidate == Ok && o.mark != Raised then old(processed) + {e.eventId} else old(processed)
      ensures ok <==> o.invalidate == Ok && o.mark == Ok
    {
      if o.invalidate != Raised {
        cache := cache - {e.orderId};
      }
      if o.invalidate != Ok {
        return false;
      }
      if o.mark != Raised {
        processed := processed + {e.eventId};
      }
      return o.mark == Ok;
    }

    method StampAndCommit(e: Event, p: nat, o: Calls) returns (ok: bool)
      requires p < |committed|
      modifies this`committed, store
      ensures Expires(e.orderId, Finishes(e) && o.stamp != Raised)
      ensures committed ==
              if (Finishes(e) ==> o.stamp == Ok) && o.commit != Raised
              then old(committed)[p := old(committed)[p] + 1] else old(committed)
      ensures ok <==> (Finishes(e) ==> o.stamp == Ok) && o.commit == Ok
    {
      if e.payload.OrderDelivered? || e.payload.OrderCancelled? {
        if o.stamp != Raised {
          store.SetExpiryForAggregate(e.orderId);
        }
        if o.stamp != Ok {
          return false;
        }
      }
      if o.commit != Raised {
        committed := committed[p := committed[p] + 1];
      }
      return o.commit == Ok;
    }

    /** The try block; true when it ends normally. */
    method TryBlock(p: nat, m: Message, o: Calls) returns (ok: bool)
      requires p < |committed| && |o.project| == 3
      modifies this`projected, this`cache, this`processed, this`committed, db, store
      ensures Value() == Tried(old(Value()), p, m, o)
      ensures ok <==> GetsToCommit(old(db.Contents()), m.event, o) && o.commit == Ok
      ensures Expires(m.event.orderId, Finishes(m.event) && Marks(old(db.Contents()), m.event, o) && o.stamp != Raised)
    {
      ok := TryProject(m.event, o.project);
      if ok {
        ok := InvalidateAndMark(m.event, o);
        if ok {
          ok := StampAndCommit(m.event, p, o);
        }
      }
    }

    /** One iteration of the loop. When a commit outside the try block raises, the process dies, and a new one polls
        from the committed offsets. */
    method HandleMessage(topic: Topic, p: nat, o: Calls)
      requires p < |topic| && p < |committed| && committed[p] < |topic[p]| && |o.project| == 3
      modifies this, db, store
      ensures var c, m := old(Value()), topic[p][old(committed)[p]];
              && Value() == (if m.event.eventId in c.processed then Skipped(c, p, o) else Processed(c, p, m, o))
              && Expires(m.event.orderId,
                         m.event.eventId !in c.processed && Finishes(m.event) && Marks(c.tables, m.event, o) &&
                         o.stamp != Raised)
      ensures Value() == Fold(Stepper(topic), old(Value()), Iteration(p, o))
    {
      IterationIsRun(topic, Value(), p, o);
      var off := committed[p];
      var m := topic[p][off];
      if m.event.eventId in processed {
        if o.commit != Raised {
          committed := committed[p := off + 1];
        }
        return;
      }
      var ok := TryBlock(p, m, o);
      if !ok {
        if o.send != Raised {
          dlq, sends := dlq[sends := m], sends + 1;
        }
        if o.close != Raised {
          committed := committed[p := off + 1];
        }
      }
    }
  }
}
