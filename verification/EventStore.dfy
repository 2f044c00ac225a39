/** The MongoDB event store (api/services/event_store.py). */
module EventStore {
  import opened Aggregate
  import opened Events
  import opened Rebuild

  /** One of the two unique indexes would be violated: (aggregate_id, aggregate_version) or event_id. */
  predicate Conflict(es: seq<Event>, e: Event)
  {
    exists i :: 0 <= i < |es| &&
      (es[i].eventId == e.eventId || (es[i].orderId == e.orderId && es[i].version == e.version))
  }

  /** The result of `get_events`. */
  function EventsOf(es: seq<Event>, oid: Id): seq<Event>
  {
    SortByVersion(OrderLog(es, oid))
  }

  /** It holds exactly the order's stored events, by ascending version. */
  lemma {:induction false} EventsOfIsSorted(es: seq<Event>, oid: Id, e: Event)
    ensures Sorted(EventsOf(es, oid)) && multiset(EventsOf(es, oid)) == multiset(OrderLog(es, oid))
    ensures e in EventsOf(es, oid) <==> e in es && e.orderId == oid
  {
    var log := OrderLog(es, oid);
    SortSorts(log);
    OrderLogElements(es, oid, e);
    assert e in multiset(EventsOf(es, oid)) <==> e in multiset(log);
  }

  /** `v` is the highest stored version of an order, 0 when there is none. */
  ghost predicate IsLatestVersion(es: seq<Event>, oid: Id, v: int)
  {
    var log := OrderLog(es, oid);
    if log == [] then v == 0
    else (exists i :: 0 <= i < |log| && log[i].version == v) && (forall i :: 0 <= i < |log| ==> log[i].version <= v)
  }

  /** In a store whose logs are lawful the latest version, the rebuilt version and the event count coincide. */
  lemma {:induction false} VersionsCoincide(es: seq<Event>, oid: Id, v: int)
    requires Lawful(oid, OrderLog(es, oid)) && OrderLog(es, oid) != []
    ensures EventsOf(es, oid) == OrderLog(es, oid)
    ensures RebuildOrder(EventsOf(es, oid)) == Some(Replay(oid, OrderLog(es, oid)))
    ensures IsLatestVersion(es, oid, v) <==> v == |OrderLog(es, oid)|
    ensures RebuildOrder(EventsOf(es, oid)).value.version == |OrderLog(es, oid)|
  {
    var log := OrderLog(es, oid);
    RebuildLawful(oid, log);
    SortOfSorted(log);
    LatestIsLength(oid, log, v);
  }

  lemma {:induction false} LatestIsLength(oid: Id, log: seq<Event>, v: int)
    requires Lawful(oid, log) && log != []
    ensures (exists i :: 0 <= i < |log| && log[i].version == v) && (forall i :: 0 <= i < |log| ==> log[i].version <= v)
            <==> v == |log|
  {
    forall i | 0 <= i < |log| ensures log[i].version == i + 1 {
      LawfulAt(oid, log, i);
    }
    assert log[|log| - 1].version == |log|;
  }

  datatype Doc = Doc(event: Event, expires: bool)

  /** How an insert ends. */
  datatype Inserted = Stored | Duplicate | Error

  function Bodies(docs: seq<Doc>): seq<Event>
  {
    seq(|docs|, i requires 0 <= i < |docs| => docs[i].event)
  }

  class Store {
    var docs: seq<Doc>

    constructor ()
      ensures docs == []
    {
      docs := [];
    }

    /** Insert. A duplicate key is reported as such and leaves the collection as it was; an insert that raises for
        another reason has taken effect or not. */
    method Append(e: Event, outcome: Outcome) returns (r: Inserted)
      modifies this
      ensures r.Duplicate? <==> outcome != Raised && Conflict(old(Bodies(docs)), e)
      ensures r.Duplicate? <==>
              (outcome != Raised &&
               exists i :: 0 <= i < |old(docs)| &&
                 (var d := old(docs)[i].event;
                  d.eventId == e.eventId || (d.orderId == e.orderId && d.version == e.version)))
      ensures r.Stored? <==> outcome == Ok && !Conflict(old(Bodies(docs)), e)
      ensures if outcome != Raised && !r.Duplicate?
              then docs == old(docs) + [Doc(e, false)] && Bodies(docs) == old(Bodies(docs)) + [e]
              else docs == old(docs)
    {
      if outcome == Raised {
        return Error;
      }
      for i := 0 to |docs|
        invariant docs == old(docs)
        invariant !Conflict(Bodies(docs[..i]), e)
      {
        var d := docs[i].event;
        assert Bodies(docs[..i + 1]) == Bodies(docs[..i]) + [d];
        if d.eventId == e.eventId || (d.orderId == e.orderId && d.version == e.version) {
          assert Bodies(docs)[i] == d;
          return Duplicate;
        }
      }
      assert docs[..|docs|] == docs;
      assert forall i :: 0 <= i < |docs| ==> Bodies(docs)[i] == docs[i].event;
      docs := docs + [Doc(e, false)];
      return if outcome == Ok then Stored else Error;
    }

    /** All events of the order, each as often as stored, by ascending version. */
    method GetEvents(oid: Id) returns (es: seq<Event>)
      ensures es == EventsOf(Bodies(docs), oid)
      ensures Sorted(es) && multiset(es) == multiset(OrderLog(Bodies(docs), oid))
      ensures forall e :: e in es <==> e.orderId == oid && e in Bodies(docs)
    {
      forall e ensures e in EventsOf(Bodies(docs), oid) <==> e.orderId == oid && e in Bodies(docs) {
        EventsOfIsSorted(Bodies(docs), oid, e);
      }
      SortSorts(OrderLog(Bodies(docs), oid));
      es := SortByVersion(OrderLog(Bodies(docs), oid));
    }

    method GetLatestVersion(oid: Id) returns (v: int)
      ensures IsLatestVersion(Bodies(docs), oid, v)
    {
      var log := OrderLog(Bodies(docs), oid);
      if log == [] {
        return 0;
      }
      v := log[0].version;
      for i := 1 to |log|
        invariant exists k :: 0 <= k < |log| && log[k].version == v
        invariant forall k :: 0 <= k < i ==> log[k].version <= v
      {
        if log[i].version > v {
          v := log[i].version;
        }
      }
    }

    /** Stamp every stored event of the order for pruning; nothing else changes. */
    method SetExpiryForAggregate(oid: Id)
      modifies this
      ensures Bodies(docs) == old(Bodies(docs))
      ensures forall i :: 0 <= i < |docs| ==> docs[i].expires == (old(docs)[i].expires || docs[i].event.orderId == oid)
    {
      for i := 0 to |docs|
        invariant |docs| == |old(docs)|
        invariant forall k :: 0 <= k < |docs| ==> docs[k].event == old(docs)[k].event
        invariant forall k :: 0 <= k < i ==> docs[k].expires == (old(docs)[k].expires || docs[k].event.orderId == oid)
        invariant forall k :: i <= k < |docs| ==> docs[k] == old(docs)[k]
      {
        if docs[i].event.orderId == oid {
          docs := docs[i := docs[i].(expires := true)];
        }
      }
    }
  }
}
