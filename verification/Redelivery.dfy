/** Replaying the log from an earlier offset: `project_to_postgres` alone, without dedup keys (consumers/main.py). */
module Redelivery {
  import opened Events
  import opened ReadModel
  import opened Seqs

  /** The order row exists and, for an added item, so does its item row. */
  predicate Marked(v: View, x: Event)
  {
    v.row.Some? && (x.payload.ItemAdded? ==> x.payload.productId in v.items)
  }

  lemma MarksStay(v: View, x: Event, e: Event)
    requires Marked(v, x)
    ensures Marked(ProjectView(v, e), x)
  {
  }

  /** Projecting `e` before a known `x` makes no difference once `e` comes again: e x e = x e. */
  lemma {:induction false} EarlierCopyAbsorbed(v: View, x: Event, e: Event)
    requires Marked(v, x)
    ensures ProjectView(ProjectView(ProjectView(v, e), x), e) == ProjectView(ProjectView(v, x), e)
  {
    if e.payload.ItemAdded? {
      ItemCopyAbsorbed(v, x, e);
    }
  }

  lemma {:induction false} ItemCopyAbsorbed(v: View, x: Event, e: Event)
    requires Marked(v, x) && e.payload.ItemAdded?
    ensures ProjectView(ProjectView(ProjectView(v, e), x), e) == ProjectView(ProjectView(v, x), e)
  {
    assert ProjectView(ProjectView(ProjectView(v, e), x), e).items == ProjectView(ProjectView(v, x), e).items;
  }

  /** The same for a whole stretch of known events: e a e = a e. */
  lemma {:induction false} EarlierCopyAbsorbedByLog(v: View, a: seq<Event>, e: Event)
    requires forall i :: 0 <= i < |a| ==> Marked(v, a[i])
    ensures ProjectLog(ProjectView(v, e), a + [e]) == ProjectLog(v, a + [e])
    decreases |a|
  {
    if a == [] {
      ProjectViewIdempotent(v, e);
      FoldSnoc(ProjectView, v, [], e);
      FoldSnoc(ProjectView, ProjectView(v, e), [], e);
    } else {
      var x, rest := a[0], a[1..];
      var w, w' := ProjectView(v, x), ProjectView(ProjectView(v, e), x);
      FoldCons(ProjectView, v, a + [e]);
      FoldCons(ProjectView, ProjectView(v, e), a + [e]);
      assert (a + [e])[1..] == rest + [e];
      forall i | 0 <= i < |rest| ensures Marked(w, rest[i]) && Marked(w', rest[i]) {
        assert rest[i] == a[i + 1];
        MarksStay(v, rest[i], x);
        MarksStay(v, rest[i], e);
        MarksStay(ProjectView(v, e), rest[i], x);
      }
      EarlierCopyAbsorbedByLog(w, rest, e);
      EarlierCopyAbsorbedByLog(w', rest, e);
      EarlierCopyAbsorbed(v, x, e);
    }
  }

  ghost predicate AllMarked(t: Tables, a: seq<Event>)
  {
    forall i :: 0 <= i < |a| ==> Marked(ViewOf(t, a[i].orderId), a[i])
  }

  lemma {:induction false} EarlierCopyAbsorbedByTables(t: Tables, a: seq<Event>, e: Event)
    requires AllMarked(t, a)
    ensures ProjectAll(Projected(t, e), a + [e]) == ProjectAll(t, a + [e])
  {
    var all := a + [e];
    forall oid ensures ViewOf(ProjectAll(Projected(t, e), all), oid) == ViewOf(ProjectAll(t, all), oid) {
      ProjectAllIsLocal(t, all, oid);
      ProjectAllIsLocal(Projected(t, e), all, oid);
      ProjectIsLocal(t, e, oid);
      if oid == e.orderId {
        var own := OrderLog(a, oid);
        OrderLogSnoc(a, e, oid);
        forall i | 0 <= i < |own| ensures Marked(ViewOf(t, oid), own[i]) {
          OrderLogElements(a, oid, own[i]);
        }
        EarlierCopyAbsorbedByLog(ViewOf(t, oid), own, e);
      }
    }
    SameViewsSameTables(ProjectAll(Projected(t, e), all), ProjectAll(t, all));
  }

  // ---------------------------------------------------------------- deliveries with rewinds

  /** Every order's CREATED comes before its other events. */
  ghost predicate CreatedFirst(log: seq<Event>)
  {
    forall i: nat :: i < |log| ==> Preceded(log, i)
  }

  ghost predicate Preceded(log: seq<Event>, i: nat)
    requires i < |log|
  {
    log[i].payload.OrderCreated? ||
    exists j :: 0 <= j < i && log[j].orderId == log[i].orderId && log[j].payload.OrderCreated?
  }

  /** A replay of the log from offset `j` on ends in the tables of a single pass. */
  ghost predicate ReplaysFrom(t: Tables, log: seq<Event>, j: nat)
    requires j <= |log|
  {
    ProjectAll(t, log[j..]) == ProjectAll(EMPTY, log)
  }

  /** Replaying the log from any offset up to `n` ends in the same tables as one pass, and every event below `n`
      has left its mark. */
  ghost predicate Settled(t: Tables, log: seq<Event>, n: nat)
    requires n <= |log|
  {
    && (forall j: nat :: j <= n ==> ReplaysFrom(t, log, j))
    && AllMarked(t, log[..n])
  }

  /** Delivering the next event keeps the log replayable from everywhere below. */
  lemma {:induction false} DeliverNext(t: Tables, log: seq<Event>, n: nat)
    requires n < |log| && CreatedFirst(log) && Settled(t, log, n)
    ensures Settled(Projected(t, log[n]), log, n + 1)
  {
    var e := log[n];
    var t' := Projected(t, e);
    assert ReplaysFrom(t, log, n);
    forall j: nat | j <= n + 1 ensures ReplaysFrom(t', log, j) {
      if j == n + 1 {
        FoldCons(Projected, t, log[n..]);
        assert log[n..][1..] == log[n + 1..];
      } else {
        assert ReplaysFrom(t, log, j);
        var a, b := log[j..n], log[n + 1..];
        assert log[j..] == a + [e] + b;
        forall i | 0 <= i < |a| ensures Marked(ViewOf(t, a[i].orderId), a[i]) {
          assert a[i] == log[..n][j + i];
        }
        EarlierCopyAbsorbedByTables(t, a, e);
        FoldConcat(Projected, t, a + [e], b);
        FoldConcat(Projected, t', a + [e], b);
      }
    }
    forall i | 0 <= i < n + 1 ensures Marked(ViewOf(t', log[i].orderId), log[i]) {
      MarkLeft(t, log, n, i);
    }
  }

  lemma {:induction false} MarkLeft(t: Tables, log: seq<Event>, n: nat, i: nat)
    requires i <= n < |log| && CreatedFirst(log) && AllMarked(t, log[..n])
    ensures Marked(ViewOf(Projected(t, log[n]), log[i].orderId), log[i])
  {
    var e := log[n];
    ProjectIsLocal(t, e, log[i].orderId);
    if i < n {
      assert log[i] == log[..n][i];
      MarksStay(ViewOf(t, log[i].orderId), log[i], e);
    } else if !e.payload.OrderCreated? {
      assert Preceded(log, n);
      var j :| 0 <= j < n && log[j].orderId == e.orderId && log[j].payload.OrderCreated?;
      assert log[j] == log[..n][j];
    }
  }

  /** Offsets are delivered one after the other, starting at the front, with jumps back to any earlier offset. */
  ghost predicate Delivery(log: seq<Event>, offsets: seq<nat>)
  {
    && (forall i :: 0 <= i < |offsets| ==> offsets[i] < |log|)
    && (forall i: nat :: i < |offsets| ==> Follows(offsets, i))
  }

  /** Delivery `i` is of the next offset or of an earlier one. */
  predicate Follows(offsets: seq<nat>, i: nat)
    requires i < |offsets|
  {
    offsets[i] <= Position(offsets[..i])
  }

  /** The offset behind the last delivered one. */
  function Position(offsets: seq<nat>): nat
  {
    if offsets == [] then 0 else offsets[|offsets| - 1] + 1
  }

  function Delivered(log: seq<Event>, offsets: seq<nat>): seq<Event>
    requires forall i :: 0 <= i < |offsets| ==> offsets[i] < |log|
  {
    seq(|offsets|, i requires 0 <= i < |offsets| => log[offsets[i]])
  }

  /** What can be replayed from everywhere up to `n` can be replayed from everywhere up to an earlier offset. */
  lemma {:induction false} SettledBelow(t: Tables, log: seq<Event>, n: nat, k: nat)
    requires k <= n <= |log| && Settled(t, log, n)
    ensures Settled(t, log, k)
  {
    forall i | 0 <= i < k ensures Marked(ViewOf(t, log[..k][i].orderId), log[..k][i]) {
      assert log[..k][i] == log[..n][i];
    }
  }

  lemma {:induction false} SettledAtStart(log: seq<Event>)
    ensures Settled(EMPTY, log, 0)
  {
    assert log[0..] == log;
  }

  lemma {:induction false} DeliveryInit(log: seq<Event>, offsets: seq<nat>, init: seq<nat>, k: nat)
    requires Delivery(log, offsets) && offsets != [] && init == offsets[..|offsets| - 1] && k == offsets[|offsets| - 1]
    ensures offsets == init + [k] && Delivery(log, init) && k < |log| && k <= Position(init)
    ensures Delivered(log, offsets) == Delivered(log, init) + [log[k]]
  {
    assert Follows(offsets, |init|);
    forall i: nat | i < |init| ensures init[i] < |log| && Follows(init, i) {
      assert Follows(offsets, i) && offsets[i] == init[i] && offsets[..i] == init[..i];
    }
  }

  lemma {:induction false} DeliverySettles(log: seq<Event>, offsets: seq<nat>) returns (t: Tables)
    requires CreatedFirst(log) && Delivery(log, offsets)
    ensures t == ProjectAll(EMPTY, Delivered(log, offsets))
    ensures Position(offsets) <= |log| && Settled(t, log, Position(offsets))
  {
    if offsets == [] {
      t := EMPTY;
      SettledAtStart(log);
    } else {
      var init, k := offsets[..|offsets| - 1], offsets[|offsets| - 1];
      DeliveryInit(log, offsets, init, k);
      var before := DeliverySettles(log, init);
      t := SettledStep(before, log, Position(init), k, Position(offsets));
      ProjectedNext(Delivered(log, init), log[k], Delivered(log, offsets));
    }
  }

  lemma {:induction false} ProjectedNext(done: seq<Event>, e: Event, done': seq<Event>)
    requires done' == done + [e]
    ensures ProjectAll(EMPTY, done') == Projected(ProjectAll(EMPTY, done), e)
  {
    FoldSnoc(Projected, EMPTY, done, e);
  }

  lemma {:induction false} SettledStep(t: Tables, log: seq<Event>, n: nat, k: nat, m: nat) returns (t': Tables)
    requires k <= n <= |log| && k < |log| && CreatedFirst(log) && Settled(t, log, n) && m == k + 1
    ensures t' == Projected(t, log[k]) && m <= |log| && Settled(t', log, m)
  {
    SettledBelow(t, log, n, k);
    DeliverNext(t, log, k);
    t' := Projected(t, log[k]);
  }

  /** A delivery that finally reaches the end leaves the read model of a single pass, whatever rewinds it made. */
  lemma {:induction false} RewindSafeReplay(log: seq<Event>, offsets: seq<nat>)
    requires CreatedFirst(log) && Delivery(log, offsets) && Position(offsets) == |log|
    ensures ProjectAll(EMPTY, Delivered(log, offsets)) == ProjectAll(EMPTY, log)
  {
    var t := DeliverySettles(log, offsets);
    assert ReplaysFrom(t, log, |log|);
    assert ProjectAll(t, log[|log|..]) == t;
  }
}
