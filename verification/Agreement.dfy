/** The two folds of one order's log: the aggregate's (api/services/aggregate.py) and the projection's
    (consumers/main.py), and what they agree on. */
module Agreement {
  import opened Aggregate
  import opened Events
  import opened ReadModel
  import opened Seqs

  /** The log of an order in the order of its events: one CREATED, at the front. */
  ghost predicate InOrder(es: seq<Event>)
  {
    es != [] && es[0].payload.OrderCreated? && forall i :: 0 < i < |es| ==> !es[i].payload.OrderCreated?
  }

  lemma {:induction false} LawfulInOrder(oid: Id, es: seq<Event>)
    requires Lawful(oid, es) && es != []
    ensures InOrder(es)
  {
    forall i | 0 <= i < |es| ensures es[i].payload.OrderCreated? <==> i == 0 {
      LawfulAt(oid, es, i);
    }
  }

  ghost predicate SameHeader(r: OrderRow, o: Order)
  {
    && r.status == o.status && r.version == o.version
    && r.customerId == o.customerId && r.customerEmail == o.customerEmail
    && r.paymentId == o.paymentId && r.trackingId == o.trackingId
  }

  function RowOf(i: Item): ItemRow
  {
    ItemRow(i.productName, i.quantity, i.unitPrice, i.lineTotal)
  }

  /** The item rows that a list of added items leaves behind. */
  function Collapse(items: seq<Item>): map<Id, ItemRow>
  {
    if items == [] then map[] else
      var rows := Collapse(items[..|items| - 1]);
      var i := items[|items| - 1];
      rows[i.productId :=
        if i.productId in rows then rows[i.productId].(quantity := i.quantity, lineTotal := i.lineTotal) else RowOf(i)]
  }

  function SumItems(items: seq<Item>): int
  {
    if items == [] then 0 else SumItems(items[..|items| - 1]) + items[|items| - 1].lineTotal
  }

  /** What the projected rows of an order have in common with its aggregate. */
  ghost predicate Agrees(v: View, o: Order)
  {
    && v.row.Some? && SameHeader(v.row.value, o)
    && v.items == Collapse(o.items) && v.row.value.total == SumLines(v.items)
    && o.total == SumItems(o.items)
  }

  lemma {:induction false} CollapseSnoc(items: seq<Item>, i: Item)
    ensures Collapse(items + [i]) == Collapse(items)[i.productId := Collapse(items + [i])[i.productId]]
    ensures Collapse(items + [i])[i.productId] == if i.productId in Collapse(items)
              then Collapse(items)[i.productId].(quantity := i.quantity, lineTotal := i.lineTotal) else RowOf(i)
    ensures SumItems(items + [i]) == SumItems(items) + i.lineTotal
  {
    assert (items + [i])[..|items|] == items;
  }

  lemma {:induction false} AgreementStep(v: View, o: Order, e: Event)
    requires Agrees(v, o) && !e.payload.OrderCreated?
    ensures Agrees(ProjectView(v, e), Apply(o, e))
  {
    if e.payload.ItemAdded? {
      AgreementItem(v, o, e);
    }
  }

  lemma {:induction false} AgreementItem(v: View, o: Order, e: Event)
    requires Agrees(v, o) && e.payload.ItemAdded?
    ensures Agrees(ProjectView(v, e), Apply(o, e))
  {
    var i := ItemOf(e.payload);
    CollapseSnoc(o.items, i);
    assert Apply(o, e).items == o.items + [i];
    assert ProjectView(v, e).items == Collapse(o.items + [i]);
  }

  lemma AgreementStart(oid: Id, e: Event)
    requires e.payload.OrderCreated?
    ensures Agrees(ProjectView(ABSENT, e), Apply(NewOrder(oid), e))
  {
  }

  /** Status, version, customer, payment and tracking agree; the rows are the collapsed items and carry their sum. */
  lemma {:induction false} FoldsAgree(oid: Id, es: seq<Event>)
    requires InOrder(es)
    ensures Agrees(ProjectLog(ABSENT, es), Replay(oid, es))
  {
    var init, e := es[..|es| - 1], es[|es| - 1];
    assert es == init + [e];
    ReplaySnoc(oid, init, e);
    FoldSnoc(ProjectView, ABSENT, init, e);
    if init != [] {
      FoldsAgree(oid, init);
      AgreementStep(ProjectLog(ABSENT, init), Replay(oid, init), e);
    } else {
      AgreementStart(oid, e);
    }
  }

  // ---------------------------------------------------------------- what a collapsed row holds

  predicate FirstOf(items: seq<Item>, p: Id, i: nat)
  {
    i < |items| && items[i].productId == p && forall k :: 0 <= k < i ==> items[k].productId != p
  }

  predicate LastOf(items: seq<Item>, p: Id, i: nat)
  {
    i < |items| && items[i].productId == p && forall k :: i < k < |items| ==> items[k].productId != p
  }

  lemma {:induction false} CollapseDomain(items: seq<Item>, p: Id)
    ensures p in Collapse(items) <==> exists i :: 0 <= i < |items| && items[i].productId == p
  {
    if items != [] {
      var n := |items| - 1;
      CollapseDomain(items[..n], p);
      assert items[n].productId == p ||
          (forall i :: 0 <= i < |items| && items[i].productId == p ==> items[..n][i] == items[i]);
    }
  }

  /** Name and unit price come from the product's first addition, quantity and line total from its last. */
  lemma {:induction false} CollapsedRow(items: seq<Item>, p: Id, first: nat, last: nat)
    requires FirstOf(items, p, first) && LastOf(items, p, last)
    ensures p in Collapse(items)
    ensures Collapse(items)[p] ==
            ItemRow(items[first].productName, items[last].quantity, items[first].unitPrice, items[last].lineTotal)
  {
    var n := |items| - 1;
    var init := items[..n];
    CollapseDomain(init, p);
    if last < n {
      CollapsedRow(init, p, first, last);
    } else if first < n {
      assert init[first].productId == p;
      var prev := LastIndex(init, p, first);
      CollapsedRow(init, p, first, prev);
    } else {
      assert p !in Collapse(init);
    }
  }

  lemma {:induction false} LastIndex(items: seq<Item>, p: Id, i: nat) returns (last: nat)
    requires i < |items| && items[i].productId == p
    ensures LastOf(items, p, last)
    decreases |items| - i
  {
    if k :| i < k < |items| && items[k].productId == p {
      last := LastIndex(items, p, k);
    } else {
      last := i;
    }
  }

  // ---------------------------------------------------------------- the two totals

  ghost predicate DistinctProducts(items: seq<Item>)
  {
    forall i, j :: 0 <= i < j < |items| ==> items[i].productId != items[j].productId
  }

  ghost predicate PositiveLines(items: seq<Item>)
  {
    forall i :: 0 <= i < |items| ==> items[i].lineTotal > 0
  }

  lemma {:induction false} CollapsedLinesPositive(items: seq<Item>, p: Id)
    requires PositiveLines(items) && p in Collapse(items)
    ensures Collapse(items)[p].lineTotal > 0
  {
    var n := |items| - 1;
    if items[n].productId != p {
      CollapsedLinesPositive(items[..n], p);
    }
  }

  lemma {:induction false} DistinctSnoc(items: seq<Item>, i: Item)
    ensures DistinctProducts(items + [i]) <==> DistinctProducts(items) && i.productId !in Collapse(items)
  {
    var all := items + [i];
    CollapseDomain(items, i.productId);
    if DistinctProducts(all) {
      forall k, l | 0 <= k < l < |items| ensures items[k].productId != items[l].productId {
        assert all[k].productId != all[l].productId;
      }
      forall k | 0 <= k < |items| ensures items[k].productId != i.productId {
        assert all[k].productId != all[|items|].productId;
      }
    }
  }

  /** A repeated product makes the projected total smaller; without repeats the totals are equal. */
  lemma {:induction false} CollapsedTotal(items: seq<Item>)
    ensures DistinctProducts(items) ==> SumLines(Collapse(items)) == SumItems(items)
    ensures PositiveLines(items) ==> SumLines(Collapse(items)) <= SumItems(items)
    ensures PositiveLines(items) && SumLines(Collapse(items)) == SumItems(items) ==> DistinctProducts(items)
  {
    if items != [] {
      var init, i := items[..|items| - 1], items[|items| - 1];
      assert items == init + [i];
      CollapsedTotal(init);
      CollapseSnoc(init, i);
      SumLinesPut(Collapse(init), i.productId, Collapse(items)[i.productId]);
      DistinctSnoc(init, i);
      if PositiveLines(items) && i.productId in Collapse(init) {
        CollapsedLinesPositive(init, i.productId);
      }
    }
  }

  /** For every in-order log with positive line totals the projected total is at most the aggregate's,
      with equality exactly when no product is added twice. */
  lemma {:induction false} TotalsCompared(oid: Id, es: seq<Event>)
    requires InOrder(es) && PositiveLines(Replay(oid, es).items)
    ensures ProjectLog(ABSENT, es).row.Some?
    ensures ProjectLog(ABSENT, es).row.value.total <= Replay(oid, es).total
    ensures ProjectLog(ABSENT, es).row.value.total == Replay(oid, es).total <==> DistinctProducts(Replay(oid, es).items)
  {
    FoldsAgree(oid, es);
    CollapsedTotal(Replay(oid, es).items);
  }

  /** Lawful logs have positive lines. */
  lemma {:induction false} LawfulLinesPositive(oid: Id, es: seq<Event>)
    requires Lawful(oid, es)
    ensures PositiveLines(Replay(oid, es).items)
  {
    if es != [] {
      var init, e := es[..|es| - 1], es[|es| - 1];
      LawfulLinesPositive(oid, init);
      if e.payload.ItemAdded? {
        IssuedLineIsPositive(e.payload);
      }
    }
  }

  // ---------------------------------------------------------------- convergence of the items

  /** Attempt `i` projected event `e`. */
  ghost predicate Landed(attempts: seq<Attempt>, i: nat, e: Event)
  {
    && i < |attempts| && attempts[i] == Attempt(e, false)
    && Project(Fold(Attempted, EMPTY, attempts[..i]), e).Some?
  }

  /** Every row of the order is the row of one of `items`. */
  ghost predicate RowsFrom(rows: map<Id, ItemRow>, items: seq<Item>)
  {
    forall p :: p in rows ==> exists k :: 0 <= k < |items| && items[k].productId == p && rows[p] == RowOf(items[k])
  }

  lemma {:induction false} ItemOfEvent(oid: Id, es: seq<Event>, e: Event)
    requires e in es && e.payload.ItemAdded?
    ensures ItemOf(e.payload) in Replay(oid, es).items
  {
    var init, last := es[..|es| - 1], es[|es| - 1];
    assert es == init + [last];
    ReplaySnoc(oid, init, last);
    if e != last {
      ItemOfEvent(oid, init, e);
    }
  }

  lemma {:induction false} ProjectKeepsRowsFrom(v: View, e: Event, items: seq<Item>)
    requires RowsFrom(v.items, items) && DistinctProducts(items)
    requires e.payload.ItemAdded? ==> ItemOf(e.payload) in items
    ensures RowsFrom(ProjectView(v, e).items, items)
    ensures forall p :: p in v.items ==> p in ProjectView(v, e).items
    ensures e.payload.ItemAdded? && v.row.Some? ==> e.payload.productId in ProjectView(v, e).items
  {
    if e.payload.ItemAdded? && v.row.Some? {
      var k :| 0 <= k < |items| && items[k] == ItemOf(e.payload);
      assert ProjectView(v, e).items[e.payload.productId] == RowOf(items[k]);
    }
  }

  lemma {:induction false} AttemptKeepsRows(t: Tables, a: Attempt, oid: Id, items: seq<Item>)
    requires RowsFrom(ViewOf(t, oid).items, items) && DistinctProducts(items)
    requires a.event.orderId == oid && a.event.payload.ItemAdded? ==> ItemOf(a.event.payload) in items
    ensures RowsFrom(ViewOf(Attempted(t, a), oid).items, items)
    ensures ViewOf(t, oid).items.Keys <= ViewOf(Attempted(t, a), oid).items.Keys
    ensures a.event.orderId == oid && a.event.payload.ItemAdded? && !a.rolledBack && Project(t, a.event).Some? ==>
              a.event.payload.productId in ViewOf(Attempted(t, a), oid).items
  {
    ProjectIsLocal(t, a.event, oid);
    if a.event.orderId == oid {
      ProjectKeepsRowsFrom(ViewOf(t, oid), a.event, items);
    }
  }

  /** The products of the order's successful attempts have rows, and these come from `items`. */
  ghost predicate RowsCover(oid: Id, items: seq<Item>, attempts: seq<Attempt>)
  {
    var rows := ViewOf(Fold(Attempted, EMPTY, attempts), oid).items;
    RowsFrom(rows, items) && forall i: nat, e ::
      Landed(attempts, i, e) && e.orderId == oid && e.payload.ItemAdded? ==> e.payload.productId in rows
  }

  lemma {:induction false} RowsCoverSnoc(oid: Id, items: seq<Item>, init: seq<Attempt>, a: Attempt)
    requires RowsCover(oid, items, init) && DistinctProducts(items)
    requires a.event.orderId == oid && a.event.payload.ItemAdded? ==> ItemOf(a.event.payload) in items
    ensures RowsCover(oid, items, init + [a])
  {
    var all := init + [a];
    var t := Fold(Attempted, EMPTY, init);
    FoldSnoc(Attempted, EMPTY, init, a);
    AttemptKeepsRows(t, a, oid, items);
    forall i: nat, e | Landed(all, i, e) && e.orderId == oid && e.payload.ItemAdded?
      ensures e.payload.productId in ViewOf(Attempted(t, a), oid).items
    {
      assert all[..i] == init[..i];
      if i < |init| {
        assert Landed(init, i, e);
      } else {
        assert init[..i] == init;
      }
    }
  }

  lemma {:induction false} RowsOnlyGrow(oid: Id, items: seq<Item>, attempts: seq<Attempt>)
    requires DistinctProducts(items)
    requires forall i ::
        0 <= i < |attempts| && attempts[i].event.orderId == oid && attempts[i].event.payload.ItemAdded? ==>
               ItemOf(attempts[i].event.payload) in items
    ensures RowsCover(oid, items, attempts)
  {
    if attempts != [] {
      var init, a := attempts[..|attempts| - 1], attempts[|attempts| - 1];
      RowsOnlyGrow(oid, items, init);
      RowsCoverSnoc(oid, items, init, a);
      assert init + [a] == attempts;
    }
  }

  /** Rows that come from `items` and miss none of them. */
  lemma {:induction false} RowsAreCollapsed(rows: map<Id, ItemRow>, items: seq<Item>)
    requires DistinctProducts(items) && RowsFrom(rows, items)
    requires forall k :: 0 <= k < |items| ==> Lookup(rows, items[k].productId) == Some(RowOf(items[k]))
    ensures rows == Collapse(items)
  {
    forall p ensures p in rows <==> p in Collapse(items) {
      CollapseDomain(items, p);
    }
    forall p | p in rows ensures rows[p] == Collapse(items)[p] {
      var k :| 0 <= k < |items| && items[k].productId == p && rows[p] == RowOf(items[k]);
      CollapsedRow(items, p, k, k);
    }
  }

  /** Whatever order, duplication or rollback happened on the way: once every ITEM_ADDED of an order with distinct
      products has been projected at least once, the item rows and the total are the aggregate's. */
  lemma {:induction false} ItemsConverge(oid: Id, es: seq<Event>, attempts: seq<Attempt>)
    requires InOrder(es) && DistinctProducts(Replay(oid, es).items)
    requires forall i ::
        0 <= i < |attempts| && attempts[i].event.orderId == oid && attempts[i].event.payload.ItemAdded? ==>
               attempts[i].event in es
    requires forall e :: e in es && e.payload.ItemAdded? ==> e.orderId == oid && exists i :: Landed(attempts, i, e)
    ensures var v, o := ViewOf(Fold(Attempted, EMPTY, attempts), oid), Replay(oid, es);
            v.items == Collapse(o.items) && (o.items != [] ==> v.row.Some?) &&
                (v.row.Some? ==> v.row.value.total == o.total)
    ensures var v, o := ViewOf(Fold(Attempted, EMPTY, attempts), oid), Replay(oid, es);
            forall k :: 0 <= k < |o.items| ==> Lookup(v.items, o.items[k].productId) == Some(RowOf(o.items[k]))
  {
    var t := Fold(Attempted, EMPTY, attempts);
    var rows, items := ViewOf(t, oid).items, Replay(oid, es).items;
    forall i | 0 <= i < |attempts| && attempts[i].event.orderId == oid && attempts[i].event.payload.ItemAdded?
      ensures ItemOf(attempts[i].event.payload) in items
    {
      ItemOfEvent(oid, es, attempts[i].event);
    }
    RowsOnlyGrow(oid, items, attempts);
    forall k | 0 <= k < |items| ensures Lookup(rows, items[k].productId) == Some(RowOf(items[k])) {
      var e := EventOfItem(oid, es, k);
      var i :| Landed(attempts, i, e);
    }
    RowsAreCollapsed(rows, items);
    TotalsAlwaysMatch(attempts);
    ConsistentViews(t);
    CollapsedTotal(items);
    FoldsAgree(oid, es);
    assert ConsistentView(ViewOf(t, oid));
  }

  lemma {:induction false} EventOfItem(oid: Id, es: seq<Event>, k: nat) returns (e: Event)
    requires k < |Replay(oid, es).items|
    ensures e in es && e.payload.ItemAdded? && ItemOf(e.payload) == Replay(oid, es).items[k]
  {
    var init, last := es[..|es| - 1], es[|es| - 1];
    assert es == init + [last];
    ReplaySnoc(oid, init, last);
    if k < |Replay(oid, init).items| {
      e := EventOfItem(oid, init, k);
    } else {
      e := last;
    }
  }
}
