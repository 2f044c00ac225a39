/** The Postgres read model and the projection of events into it
    (project_to_postgres in consumers/main.py, schema in infra/postgres_init.sql). Timestamps are dropped. */
module ReadModel {
  import opened Events
  import opened Seqs

  datatype OrderRow = OrderRow(
    customerId: Id, customerEmail: string, status: Status, total: int, version: int,
    paymentId: Option<Id>, trackingId: Option<Id>)

  datatype ItemRow = ItemRow(productName: string, quantity: int, unitPrice: int, lineTotal: int)

  /** `orders` keyed by order id; `order_items` keyed by its unique pair (order id, product id). */
  datatype Tables = Tables(orders: map<Id, OrderRow>, items: map<(Id, Id), ItemRow>)

  const EMPTY := Tables(map[], map[])

  // ---------------------------------------------------------------- sums of lines

  /** SUM(line_total) over a set of item rows. */
  ghost function SumLines(rows: map<Id, ItemRow>): int
  {
    if rows == map[] then 0 else
      var p :| p in rows;
      rows[p].lineTotal + SumLines(rows - {p})
  }

  /** The sum does not depend on the order in which the rows are visited. */
  lemma {:induction false} SumLinesRemove(rows: map<Id, ItemRow>, p: Id)
    requires p in rows
    ensures SumLines(rows) == rows[p].lineTotal + SumLines(rows - {p})
    decreases |rows|
  {
    var q :| q in rows && SumLines(rows) == rows[q].lineTotal + SumLines(rows - {q});
    if p != q {
      var rest := rows - {p, q};
      assert rows - {q} - {p} == rest && rows - {p} - {q} == rest;
      SumLinesRemove(rows - {q}, p);
      SumLinesRemove(rows - {p}, q);
    }
  }

  lemma {:induction false} SumLinesPut(rows: map<Id, ItemRow>, p: Id, row: ItemRow)
    ensures SumLines(rows[p := row]) == SumLines(rows) - (if p in rows then rows[p].lineTotal else 0) + row.lineTotal
  {
    SumLinesRemove(rows[p := row], p);
    assert rows[p := row] - {p} == rows - {p};
    if p in rows {
      SumLinesRemove(rows, p);
    } else {
      assert rows - {p} == rows;
    }
  }

  // ---------------------------------------------------------------- projection

  function ItemsOf(items: map<(Id, Id), ItemRow>, oid: Id): map<Id, ItemRow>
  {
    map k | k in items && k.0 == oid :: k.1 := items[k]
  }

  /** INSERT ... ON CONFLICT DO UPDATE SET quantity, line_total. */
  function LineRow(existing: Option<ItemRow>, p: Payload): ItemRow
    requires p.ItemAdded?
  {
    if existing.Some? then existing.value.(quantity := p.quantity, lineTotal := p.lineTotal)
    else ItemRow(p.productName, p.quantity, p.unitPrice, p.lineTotal)
  }

  function Lookup<K, V>(m: map<K, V>, k: K): Option<V>
  {
    if k in m then Some(m[k]) else None
  }

  /** The columns an UPDATE sets for the events that only touch the `orders` row. */
  function UpdateRow(r: OrderRow, e: Event): OrderRow
  {
    match e.payload
    case OrderCreated(_, _) => r
    case ItemAdded(_, _, _, _, _) => r.(version := e.version)
    case OrderConfirmed => r.(status := Confirmed, version := e.version)
    case PaymentProcessed(paymentId, _, _) => r.(status := Paid, paymentId := Some(paymentId), version := e.version)
    case OrderShipped(trackingId, _) => r.(status := Shipped, trackingId := Some(trackingId), version := e.version)
    case OrderDelivered => r.(status := Delivered, version := e.version)
    case OrderCancelled(_) => r.(status := Cancelled, version := e.version)
  }

  /** One transaction: the new tables, or nothing when the foreign key of `order_items` is violated. */
  ghost function Project(t: Tables, e: Event): Option<Tables>
  {
    var oid := e.orderId;
    match e.payload
    case OrderCreated(customerId, email) =>
      if oid in t.orders then Some(t)
      else Some(t.(orders := t.orders[oid := OrderRow(customerId, email, Pending, 0, e.version, None, None)]))
    case ItemAdded(product, _, _, _, _) =>
      if oid !in t.orders then None else
        var key := (oid, product);
        var items := t.items[key := LineRow(Lookup(t.items, key), e.payload)];
        Some(Tables(t.orders[oid := UpdateRow(t.orders[oid], e).(total := SumLines(ItemsOf(items, oid)))], items))
    case _ =>
      if oid !in t.orders then Some(t) else Some(t.(orders := t.orders[oid := UpdateRow(t.orders[oid], e)]))
  }

  /** A transaction that fails is rolled back. */
  ghost function Projected(t: Tables, e: Event): Tables
  {
    match Project(t, e)
    case Some(t') => t'
    case None => t
  }

  /** The read model after projecting `es` in order, rolled-back failures included. */
  ghost function ProjectAll(t: Tables, es: seq<Event>): Tables
  {
    Fold(Projected, t, es)
  }

  // ---------------------------------------------------------------- one order at a time

  /** What the tables hold about one order. */
  datatype View = View(row: Option<OrderRow>, items: map<Id, ItemRow>)

  const ABSENT := View(None, map[])

  function ViewOf(t: Tables, oid: Id): View
  {
    View(Lookup(t.orders, oid), ItemsOf(t.items, oid))
  }

  /** The projection seen from the event's own order. */
  ghost function ProjectView(v: View, e: Event): View
  {
    match e.payload
    case OrderCreated(customerId, email) =>
      if v.row.Some? then v else v.(row := Some(OrderRow(customerId, email, Pending, 0, e.version, None, None)))
    case ItemAdded(product, _, _, _, _) =>
      if v.row.None? then v else
        var items := v.items[product := LineRow(Lookup(v.items, product), e.payload)];
        View(Some(UpdateRow(v.row.value, e).(total := SumLines(items))), items)
    case _ =>
      if v.row.None? then v else v.(row := Some(UpdateRow(v.row.value, e)))
  }

  ghost function ProjectLog(v: View, es: seq<Event>): View
  {
    Fold(ProjectView, v, es)
  }

  lemma {:induction false} ItemsOfPut(items: map<(Id, Id), ItemRow>, oid: Id, product: Id, row: ItemRow, other: Id)
    ensures ItemsOf(items[(oid, product) := row], other) ==
            if other == oid then ItemsOf(items, oid)[product := row] else ItemsOf(items, other)
  {
    if other == oid {
      var a, b := ItemsOf(items[(oid, product) := row], oid), ItemsOf(items, oid)[product := row];
      forall p ensures p in a <==> p in b {
        assert p in a <==> (oid, p) in items[(oid, product) := row];
        assert p in ItemsOf(items, oid) <==> (oid, p) in items;
      }
    }
  }

  /** An event changes only its own order, and in a way that depends only on that order. */
  lemma {:induction false} ProjectIsLocal(t: Tables, e: Event, oid: Id)
    ensures ViewOf(Projected(t, e), oid) == if oid == e.orderId then ProjectView(ViewOf(t, oid), e) else ViewOf(t, oid)
  {
    if e.payload.ItemAdded? && e.orderId in t.orders {
      var key := (e.orderId, e.payload.productId);
      var row := LineRow(Lookup(t.items, key), e.payload);
      ItemsOfPut(t.items, e.orderId, e.payload.productId, row, oid);
      ItemsOfPut(t.items, e.orderId, e.payload.productId, row, e.orderId);
      assert key in t.items <==> e.payload.productId in ItemsOf(t.items, e.orderId);
    }
  }

  /** The rows of one order come from that order's events alone. */
  lemma {:induction false} ProjectAllIsLocal(t: Tables, es: seq<Event>, oid: Id)
    ensures ViewOf(ProjectAll(t, es), oid) == ProjectLog(ViewOf(t, oid), OrderLog(es, oid))
  {
    if es != [] {
      var init, e := es[..|es| - 1], es[|es| - 1];
      ProjectAllIsLocal(t, init, oid);
      ProjectIsLocal(ProjectAll(t, init), e, oid);
      FoldSnoc(ProjectView, ViewOf(t, oid), OrderLog(init, oid), e);
    }
  }

  /** Tables are equal when they hold the same about every order. */
  lemma {:induction false} SameViewsSameTables(t: Tables, t': Tables)
    requires forall oid :: ViewOf(t, oid) == ViewOf(t', oid)
    ensures t == t'
  {
    forall oid ensures oid in t.orders <==> oid in t'.orders {
      assert ViewOf(t, oid) == ViewOf(t', oid);
    }
    forall oid | oid in t.orders ensures t.orders[oid] == t'.orders[oid] {
      assert ViewOf(t, oid) == ViewOf(t', oid);
    }
    forall k ensures k in t.items <==> k in t'.items {
      assert ViewOf(t, k.0) == ViewOf(t', k.0);
      assert k in t.items <==> k.1 in ItemsOf(t.items, k.0);
      assert k in t'.items <==> k.1 in ItemsOf(t'.items, k.0);
    }
    forall k | k in t.items ensures t.items[k] == t'.items[k] {
      assert ViewOf(t, k.0) == ViewOf(t', k.0);
      assert t.items[k] == ItemsOf(t.items, k.0)[k.1] && t'.items[k] == ItemsOf(t'.items, k.0)[k.1];
    }
    assert t.orders == t'.orders && t.items == t'.items;
  }

  /** Every interleaving that keeps each order's own sequence yields the same tables. */
  lemma {:induction false} OrdersAreIndependent(t: Tables, a: seq<Event>, b: seq<Event>)
    requires forall oid :: OrderLog(a, oid) == OrderLog(b, oid)
    ensures ProjectAll(t, a) == ProjectAll(t, b)
  {
    forall oid ensures ViewOf(ProjectAll(t, a), oid) == ViewOf(ProjectAll(t, b), oid) {
      ProjectAllIsLocal(t, a, oid);
      ProjectAllIsLocal(t, b, oid);
      assert OrderLog(a, oid) == OrderLog(b, oid);
    }
    SameViewsSameTables(ProjectAll(t, a), ProjectAll(t, b));
  }

  /** Neighbouring projections of different orders commute. */
  lemma {:induction false} ProjectionsCommute(t: Tables, e: Event, f: Event)
    requires e.orderId != f.orderId
    ensures Projected(Projected(t, e), f) == Projected(Projected(t, f), e)
  {
    var a, b := Projected(Projected(t, e), f), Projected(Projected(t, f), e);
    forall oid ensures ViewOf(a, oid) == ViewOf(b, oid) {
      ProjectIsLocal(t, e, oid);
      ProjectIsLocal(t, f, oid);
      ProjectIsLocal(Projected(t, e), f, oid);
      ProjectIsLocal(Projected(t, f), e, oid);
    }
    SameViewsSameTables(a, b);
  }

  // ---------------------------------------------------------------- totals

  /** Every total is the sum of the order's lines and no item row lacks its order. */
  ghost predicate Consistent(t: Tables)
  {
    && (forall oid :: oid in t.orders ==> t.orders[oid].total == SumLines(ItemsOf(t.items, oid)))
    && (forall k :: k in t.items ==> k.0 in t.orders)
  }

  ghost predicate ConsistentView(v: View)
  {
    if v.row.None? then v.items == map[] else v.row.value.total == SumLines(v.items)
  }

  lemma {:induction false} ConsistentViews(t: Tables)
    ensures Consistent(t) <==> forall oid :: ConsistentView(ViewOf(t, oid))
  {
    if forall oid :: ConsistentView(ViewOf(t, oid)) {
      forall k | k in t.items ensures k.0 in t.orders {
        assert ConsistentView(ViewOf(t, k.0));
        assert k.1 in ItemsOf(t.items, k.0);
      }
      forall oid | oid in t.orders ensures t.orders[oid].total == SumLines(ItemsOf(t.items, oid)) {
        assert ConsistentView(ViewOf(t, oid));
      }
    }
    if Consistent(t) {
      forall oid ensures ConsistentView(ViewOf(t, oid)) {
        if oid !in t.orders {
          assert forall p :: p !in ItemsOf(t.items, oid);
        }
      }
    }
  }

  lemma ProjectViewKeepsConsistent(v: View, e: Event)
    requires ConsistentView(v)
    ensures ConsistentView(ProjectView(v, e))
  {
  }

  lemma {:induction false} ProjectKeepsConsistent(t: Tables, e: Event)
    requires Consistent(t)
    ensures Consistent(Projected(t, e))
  {
    ConsistentViews(t);
    ConsistentViews(Projected(t, e));
    forall oid ensures ConsistentView(ViewOf(Projected(t, e), oid)) {
      assert ConsistentView(ViewOf(t, oid));
      ProjectIsLocal(t, e, oid);
      ProjectViewKeepsConsistent(ViewOf(t, oid), e);
    }
  }

  /** One delivery of an event; the transaction may be rolled back for any reason. */
  datatype Attempt = Attempt(event: Event, rolledBack: bool)

  ghost function Attempted(t: Tables, a: Attempt): Tables
  {
    if a.rolledBack then t else Projected(t, a.event)
  }

  /** Any events, in any order, with duplicates and rolled-back failures, leave the totals right. */
  lemma {:induction false} TotalsAlwaysMatch(attempts: seq<Attempt>)
    ensures Consistent(Fold(Attempted, EMPTY, attempts))
  {
    if attempts == [] {
      ConsistentViews(EMPTY);
    } else {
      var init := attempts[..|attempts| - 1];
      TotalsAlwaysMatch(init);
      ProjectKeepsConsistent(Fold(Attempted, EMPTY, init), attempts[|attempts| - 1].event);
    }
  }

  /** Projecting the same event again changes nothing. */
  lemma {:induction false} ProjectViewIdempotent(v: View, e: Event)
    ensures ProjectView(ProjectView(v, e), e) == ProjectView(v, e)
  {
    if e.payload.ItemAdded? && v.row.Some? {
      var p := e.payload.productId;
      var items := v.items[p := LineRow(Lookup(v.items, p), e.payload)];
      assert items[p := LineRow(Some(items[p]), e.payload)] == items;
    }
  }

  lemma {:induction false} ProjectIdempotent(t: Tables, e: Event)
    ensures Projected(Projected(t, e), e) == Projected(t, e)
  {
    var once := Projected(t, e);
    forall oid ensures ViewOf(Projected(once, e), oid) == ViewOf(once, oid) {
      ProjectIsLocal(t, e, oid);
      ProjectIsLocal(once, e, oid);
      ProjectViewIdempotent(ViewOf(t, oid), e);
    }
    SameViewsSameTables(Projected(once, e), once);
  }
}
