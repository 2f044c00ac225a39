/** Rebuilding the aggregate from a list of stored events (OrderAggregate in api/services/aggregate.py). */
module Rebuild {
  import opened Aggregate
  import opened Events

  // ---------------------------------------------------------------- sorting by version

  /** `es` with `e` placed behind every event whose version is not larger. */
  function Insert(e: Event, es: seq<Event>): seq<Event>
  {
    if es == [] || es[|es| - 1].version <= e.version then es + [e]
    else Insert(e, es[..|es| - 1]) + [es[|es| - 1]]
  }

  /** Stable sort by version. */
  function SortByVersion(es: seq<Event>): seq<Event>
  {
    if es == [] then [] else Insert(es[|es| - 1], SortByVersion(es[..|es| - 1]))
  }

  ghost predicate Sorted(es: seq<Event>)
  {
    forall i, j :: 0 <= i < j < |es| ==> es[i].version <= es[j].version
  }

  ghost predicate DistinctVersions(es: seq<Event>)
  {
    forall i, j :: 0 <= i < |es| && 0 <= j < |es| && es[i].version == es[j].version ==> i == j
  }

  lemma {:induction false} MultisetOfInit(es: seq<Event>)
    requires es != []
    ensures multiset(es[..|es| - 1]) == multiset(es) - multiset{es[|es| - 1]}
  {
    assert es == es[..|es| - 1] + [es[|es| - 1]];
  }

  lemma {:induction false} InsertAdds(e: Event, es: seq<Event>)
    ensures multiset(Insert(e, es)) == multiset(es) + multiset{e}
  {
    if es != [] && es[|es| - 1].version > e.version {
      InsertAdds(e, es[..|es| - 1]);
      assert es == es[..|es| - 1] + [es[|es| - 1]];
    }
  }

  lemma {:induction false} InsertSorts(e: Event, es: seq<Event>)
    requires Sorted(es)
    ensures Sorted(Insert(e, es))
  {
    if es != [] && es[|es| - 1].version > e.version {
      var init, last := es[..|es| - 1], es[|es| - 1];
      InsertSorts(e, init);
      InsertAdds(e, init);
      forall i | 0 <= i < |Insert(e, init)| ensures Insert(e, init)[i].version <= last.version {
        assert Insert(e, init)[i] in multiset(Insert(e, init));
      }
    }
  }

  lemma {:induction false} SortSorts(es: seq<Event>)
    ensures Sorted(SortByVersion(es)) && multiset(SortByVersion(es)) == multiset(es)
  {
    if es != [] {
      var init, last := es[..|es| - 1], es[|es| - 1];
      SortSorts(init);
      InsertSorts(last, SortByVersion(init));
      InsertAdds(last, SortByVersion(init));
      assert es == init + [last];
    }
  }

  /** The last event of a sorted sequence is its only event of the highest version. */
  lemma {:induction false} SortedLast(a: seq<Event>, b: seq<Event>)
    requires Sorted(a) && Sorted(b) && DistinctVersions(a) && multiset(a) == multiset(b) && a != [] && b != []
    ensures a[|a| - 1] == b[|b| - 1]
  {
    var x, y := a[|a| - 1], b[|b| - 1];
    assert x in multiset(b) && y in multiset(a);
    var i :| 0 <= i < |a| && a[i] == y;
    var j :| 0 <= j < |b| && b[j] == x;
    assert x.version == y.version;
  }

  /** With distinct versions there is only one way to sort. */
  lemma {:induction false} SortedIsUnique(a: seq<Event>, b: seq<Event>)
    requires Sorted(a) && Sorted(b) && DistinctVersions(a) && multiset(a) == multiset(b)
    ensures a == b
  {
    assert |multiset(a)| == |a| && |multiset(b)| == |b|;
    if a != [] {
      SortedLast(a, b);
      MultisetOfInit(a);
      MultisetOfInit(b);
      SortedInit(a);
      SortedInit(b);
      SortedIsUnique(a[..|a| - 1], b[..|b| - 1]);
      EqualByInit(a, b);
    }
  }

  lemma SortedInit(es: seq<Event>)
    requires Sorted(es) && es != []
    ensures Sorted(es[..|es| - 1])
    ensures DistinctVersions(es) ==> DistinctVersions(es[..|es| - 1])
  {
  }

  lemma {:induction false} EqualByInit(a: seq<Event>, b: seq<Event>)
    requires a != [] && b != [] && a[..|a| - 1] == b[..|b| - 1] && a[|a| - 1] == b[|b| - 1]
    ensures a == b
  {
    assert a == a[..|a| - 1] + [a[|a| - 1]];
    assert b == b[..|b| - 1] + [b[|b| - 1]];
  }

  // ---------------------------------------------------------------- rebuild_from_events

  /** The rebuilt aggregate; nothing when there is no event. */
  function RebuildOrder(es: seq<Event>): Option<Order>
  {
    if es == [] then None else Some(Replay(es[0].orderId, SortByVersion(es)))
  }

  ghost predicate OfOneOrder(es: seq<Event>)
  {
    forall i, j :: 0 <= i < |es| && 0 <= j < |es| ==> es[i].orderId == es[j].orderId
  }

  /** The order in which an order's events are handed over does not matter. */
  lemma {:induction false} RebuildIgnoresOrder(a: seq<Event>, b: seq<Event>)
    requires multiset(a) == multiset(b) && DistinctVersions(a) && OfOneOrder(a)
    ensures RebuildOrder(a) == RebuildOrder(b)
  {
    assert |multiset(a)| == |a| && |multiset(b)| == |b|;
    SortSorts(a);
    SortSorts(b);
    DistinctVersionsOfPermutation(a, SortByVersion(a));
    SortedIsUnique(SortByVersion(a), SortByVersion(b));
    if b != [] {
      assert b[0] in multiset(a);
    }
  }

  lemma {:induction false} DistinctVersionsOfPermutation(a: seq<Event>, b: seq<Event>)
    requires multiset(a) == multiset(b) && DistinctVersions(a)
    ensures DistinctVersions(b)
  {
    forall i, j | 0 <= i < j < |b| ensures b[i].version != b[j].version {
      if b[i].version == b[j].version {
        assert b[i] in multiset(a) && b[j] in multiset(a);
        assert b[i] == b[j];
        TwiceInMultiset(b, i, j);
        OnceInMultiset(a, b[i]);
      }
    }
  }

  lemma {:induction false} TwiceInMultiset(b: seq<Event>, i: nat, j: nat)
    requires i < j < |b| && b[i] == b[j]
    ensures multiset(b)[b[i]] >= 2
  {
    assert b == b[..j] + [b[j]] + b[j + 1..];
    assert b[i] in b[..j];
    assert b[i] in multiset(b[..j]);
  }

  lemma {:induction false} OnceInMultiset(a: seq<Event>, e: Event)
    requires DistinctVersions(a)
    ensures multiset(a)[e] <= 1
  {
    if a != [] {
      var n := |a| - 1;
      OnceInMultiset(a[..n], e);
      assert a == a[..n] + [a[n]];
      if a[n] == e {
        assert e !in a[..n];
      }
    }
  }

  /** Appending an event of a higher version is one more step of the replay. */
  lemma {:induction false} RebuildIsIncremental(es: seq<Event>, e: Event)
    requires es != [] && forall x :: x in es ==> x.version < e.version
    ensures RebuildOrder(es + [e]) == Some(Apply(RebuildOrder(es).value, e))
  {
    SortSorts(es);
    var sorted := SortByVersion(es);
    assert (es + [e])[..|es|] == es;
    if sorted != [] {
      assert sorted[|sorted| - 1] in multiset(es);
    }
    assert SortByVersion(es + [e]) == sorted + [e];
    ReplaySnoc(es[0].orderId, sorted, e);
  }

  /** A log whose versions increase is its own sort. */
  lemma {:induction false} SortOfSorted(es: seq<Event>)
    requires Sorted(es)
    ensures SortByVersion(es) == es
  {
    if es != [] {
      SortOfSorted(es[..|es| - 1]);
      assert es == es[..|es| - 1] + [es[|es| - 1]];
    }
  }

  /** A lawful log is sorted, so rebuilding it is replaying it. */
  lemma {:induction false} RebuildLawful(oid: Id, es: seq<Event>)
    requires Lawful(oid, es) && es != []
    ensures Sorted(es) && DistinctVersions(es)
    ensures RebuildOrder(es) == Some(Replay(oid, es)) && Replay(oid, es).version == |es|
  {
    forall i | 0 <= i < |es| ensures es[i].version == i + 1 && es[i].orderId == oid {
      LawfulAt(oid, es, i);
    }
    SortOfSorted(es);
    LawfulVersion(oid, es);
  }

  // ---------------------------------------------------------------- the mutable aggregate

  class OrderAggregate {
    var orderId: Id
    var version: int
    var status: Status
    var customerId: Id
    var customerEmail: string
    var items: seq<Item>
    var total: int
    var paymentId: Option<Id>
    var trackingId: Option<Id>

    ghost function Value(): Order
      reads this
    {
      Order(orderId, version, status, customerId, customerEmail, items, total, paymentId, trackingId)
    }

    constructor (oid: Id)
      ensures Value() == NewOrder(oid)
    {
      orderId, version, status, customerId, customerEmail := oid, 0, Pending, "", "";
      items, total, paymentId, trackingId := [], 0, None, None;
    }

    method ApplyEvent(e: Event)
      modifies this
      ensures Value() == Apply(old(Value()), e)
    {
      version := e.version;
      match e.payload {
        case OrderCreated(customer, email) =>
          customerId := customer;
          customerEmail := email;
          status := Pending;
        case ItemAdded(productId, productName, quantity, unitPrice, lineTotal) =>
          items := items + [Item(productId, productName, quantity, unitPrice, lineTotal)];
          total := total + lineTotal;
        case OrderConfirmed => status := Confirmed;
        case PaymentProcessed(payment, _, _) =>
          status := Paid;
          paymentId := Some(payment);
        case OrderShipped(tracking, _) =>
          status := Shipped;
          trackingId := Some(tracking);
        case OrderDelivered => status := Delivered;
        case OrderCancelled(_) => status := Cancelled;
      }
    }

    static method RebuildFromEvents(events: seq<Event>) returns (agg: OrderAggregate?)
      ensures agg == null <==> events == []
      ensures agg != null ==> fresh(agg) && RebuildOrder(events) == Some(agg.Value())
    {
      if events == [] {
        return null;
      }
      var sorted := SortByVersion(events);
      var rebuilt := new OrderAggregate(events[0].orderId);
      for i := 0 to |sorted|
        invariant fresh(rebuilt)
        invariant rebuilt.Value() == Replay(events[0].orderId, sorted[..i])
      {
        assert sorted[..i + 1] == sorted[..i] + [sorted[i]];
        ReplaySnoc(events[0].orderId, sorted[..i], sorted[i]);
        rebuilt.ApplyEvent(sorted[i]);
      }
      assert sorted[..|sorted|] == sorted;
      return rebuilt;
    }

    predicate CanAddItem()
      reads this
      ensures forall p: Payload :: p.ItemAdded? ==> (CanAddItem() <==> CanApply(Value(), p))
    {
      status == Pending
    }

    predicate CanConfirm()
      reads this
      ensures CanConfirm() <==> CanApply(Value(), OrderConfirmed)
    {
      items != [] && status == Pending
    }

    predicate CanPay()
      reads this
      ensures forall p: Payload :: p.PaymentProcessed? ==> (CanPay() <==> CanApply(Value(), p))
    {
      status == Confirmed
    }

    predicate CanShip()
      reads this
      ensures forall p: Payload :: p.OrderShipped? ==> (CanShip() <==> CanApply(Value(), p))
    {
      status == Paid
    }

    predicate CanCancel()
      reads this
      ensures forall p: Payload :: p.OrderCancelled? ==> (CanCancel() <==> CanApply(Value(), p))
    {
      status != Shipped && status != Delivered
    }
  }
}
