/** `project_to_postgres` statement by statement, and its retry decorator (consumers/main.py). */
module Postgres {
  import opened Events
  import opened ReadModel

  /** No attempt got as far as the database. */
  predicate NeverReached(outcomes: seq<Outcome>)
  {
    forall i :: 0 <= i < |outcomes| ==> outcomes[i] == Raised
  }

  class Database {
    var orders: map<Id, OrderRow>
    var items: map<(Id, Id), ItemRow>

    ghost function Contents(): Tables
      reads this
    {
      Tables(orders, items)
    }

    constructor ()
      ensures Contents() == EMPTY
    {
      orders, items := map[], map[];
    }

    /** SELECT COALESCE(SUM(line_total), 0) FROM order_items WHERE order_id = oid. */
    method SumOfLines(oid: Id) returns (sum: int)
      ensures sum == SumLines(ItemsOf(items, oid))
    {
      sum := 0;
      var rows := ItemsOf(items, oid);
      var left := rows;
      while left != map[]
        invariant sum + SumLines(left) == SumLines(rows)
        decreases |left|
      {
        var p :| p in left;
        SumLinesRemove(left, p);
        sum := sum + left[p].lineTotal;
        left := left - {p};
      }
    }

    /** The transaction body; on a constraint violation everything it did is rolled back. */
    method ProjectToPostgres(e: Event) returns (committed: bool)
      modifies this
      ensures committed <==> Project(old(Contents()), e).Some?
      ensures committed <==> (e.payload.ItemAdded? ==> e.orderId in old(orders))
      ensures Contents() == Projected(old(Contents()), e)
    {
      var oid := e.orderId;
      match e.payload {
        case OrderCreated(customerId, email) =>
          if oid !in orders {
            orders := orders[oid := OrderRow(customerId, email, Pending, 0, e.version, None, None)];
          }
        case ItemAdded(product, name, quantity, unitPrice, lineTotal) =>
          var before := items;
          if (oid, product) in items {
            items := items[(oid, product) := items[(oid, product)].(quantity := quantity, lineTotal := lineTotal)];
          } else {
            items := items[(oid, product) := ItemRow(name, quantity, unitPrice, lineTotal)];
          }
          if oid !in orders {
            items := before;
            return false;
          }
          var sum := SumOfLines(oid);
          orders := orders[oid := orders[oid].(total := sum, version := e.version)];
        case OrderConfirmed =>
          if oid in orders {
            orders := orders[oid := orders[oid].(status := Confirmed, version := e.version)];
          }
        case PaymentProcessed(paymentId, _, _) =>
          if oid in orders {
            orders := orders[oid := orders[oid].(status := Paid, paymentId := Some(paymentId), version := e.version)];
          }
        case OrderShipped(trackingId, _) =>
          if oid in orders {
            var row := orders[oid].(status := Shipped, trackingId := Some(trackingId), version := e.version);
            orders := orders[oid := row];
          }
        case OrderDelivered =>
          if oid in orders {
            orders := orders[oid := orders[oid].(status := Delivered, version := e.version)];
          }
        case OrderCancelled(_) =>
          if oid in orders {
            orders := orders[oid := orders[oid].(status := Cancelled, version := e.version)];
          }
      }
      return true;
    }

    /** Three attempts: however the attempts end, the event is projected once in effect or not at all,
        and the call returns normally only if it is projected. */
    method ProjectWithRetry(e: Event, outcomes: seq<Outcome>) returns (ok: bool)
      requires |outcomes| == 3
      modifies this
      ensures Contents() == if NeverReached(outcomes) then old(Contents()) else Projected(old(Contents()), e)
      ensures ok <==> Project(old(Contents()), e).Some? && Ok in outcomes
      ensures ok <==> (e.payload.ItemAdded? ==> e.orderId in old(orders)) && Ok in outcomes
    {
      ghost var start := Contents();
      for i := 0 to 3
        invariant Contents() == if NeverReached(outcomes[..i]) then start else Projected(start, e)
        invariant Project(start, e).Some? ==> Ok !in outcomes[..i]
      {
        ProjectIdempotent(start, e);
        assert outcomes[..i + 1] == outcomes[..i] + [outcomes[i]];
        if outcomes[i] != Raised {
          ProjectAgain(start, e);
          var committed := ProjectToPostgres(e);
          if committed && outcomes[i] == Ok {
            return true;
          }
        }
      }
      assert outcomes[..3] == outcomes;
      return false;
    }
  }

  /** A projection that succeeded once succeeds again; one that failed left the tables as they were. */
  lemma ProjectAgain(t: Tables, e: Event)
    ensures Project(Projected(t, e), e).Some? <==> Project(t, e).Some?
  {
  }
}
