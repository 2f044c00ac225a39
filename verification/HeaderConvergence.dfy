/** Status, version, payment and tracking of an order's row after any run of the whole system: the UPDATEs carry no
    version guard, so what counts is the last projection (consumers/main.py, lambda_handlers/retry_handler.py). */
module HeaderConvergence {
  import opened Aggregate
  import opened Agreement
  import opened Convergence
  import opened CrashSafety
  import opened Events
  import opened EventStore
  import opened Pipeline
  import opened ReadModel
  import opened Rebuild
  import opened Seqs
  import Consumer

  // ---------------------------------------------------------------- the committed projections of a run

  /** The step commits a projection of the message at hand. */
  ghost predicate Projects(s: System, move: Pipeline.Move)
  {
    && move.Consume? && move.action.ProjectStep? && move.action.outcome != Raised
    && Consumer.IsAt(s.c, Consumer.AtProject) && Project(s.c.tables, s.c.phase.m.event).Some?
  }

  /** The events projected in a run, in order. */
  ghost function Projections(partitions: nat, moves: seq<Pipeline.Move>): seq<Event>
  {
    if moves == [] then [] else
      var init, s := moves[..|moves| - 1], Pipeline.Run(partitions, moves[..|moves| - 1]);
      if Projects(s, moves[|moves| - 1]) then Projections(partitions, init) + [s.c.phase.m.event]
      else Projections(partitions, init)
  }

  ghost predicate Traced(s: System, es: seq<Event>)
  {
    && s.c.tables == ProjectAll(EMPTY, es)
    && (forall e :: e in es <==> e in s.c.projected)
    && (forall e :: e in es ==> e in s.write.docs)
  }

  lemma StepWrites(s: System, move: Pipeline.Move)
    ensures var s' := Pipeline.Next(s, move);
            if Projects(s, move)
            then s'.write == s.write && s'.c.tables == Projected(s.c.tables, s.c.phase.m.event) &&
                 s'.c.projected == s.c.projected + {s.c.phase.m.event}
            else s'.c.tables == s.c.tables && s'.c.projected == s.c.projected
    ensures forall e :: e in s.write.docs ==> e in Pipeline.Next(s, move).write.docs
  {
  }

  lemma {:induction false} TracedStep(s: System, move: Pipeline.Move, es: seq<Event>)
    requires Traced(s, es) && AllStored(s)
    ensures Traced(Pipeline.Next(s, move), if Projects(s, move) then es + [s.c.phase.m.event] else es)
  {
    StepWrites(s, move);
    if Projects(s, move) {
      FoldSnoc(Projected, EMPTY, es, s.c.phase.m.event);
    }
  }

  /** The tables are the fold of the committed projections, and these are of stored events. */
  lemma {:induction false} RunIsTraced(partitions: nat, moves: seq<Pipeline.Move>)
    requires forall i :: 0 <= i < |moves| ==> Arrives(moves[i])
    ensures Traced(Pipeline.Run(partitions, moves), Projections(partitions, moves))
  {
    if moves != [] {
      var init := moves[..|moves| - 1];
      RunIsTraced(partitions, init);
      RunIsSound(partitions, init);
      TracedStep(Pipeline.Run(partitions, init), moves[|moves| - 1], Projections(partitions, init));
    }
  }

  // ---------------------------------------------------------------- what a row shows

  predicate Touches(e: Event)
  {
    !e.payload.OrderCreated?
  }

  predicate SetsStatus(e: Event)
  {
    !e.payload.OrderCreated? && !e.payload.ItemAdded?
  }

  predicate SetsPayment(e: Event)
  {
    e.payload.PaymentProcessed?
  }

  predicate SetsTracking(e: Event)
  {
    e.payload.OrderShipped?
  }

  function LastOf(which: Event -> bool, es: seq<Event>): Option<Event>
  {
    if es == [] then None
    else if which(es[|es| - 1]) then Some(es[|es| - 1])
    else LastOf(which, es[..|es| - 1])
  }

  function FirstCreated(es: seq<Event>): Option<Event>
  {
    if es == [] then None else
      var before := FirstCreated(es[..|es| - 1]);
      if before.None? && es[|es| - 1].payload.OrderCreated? then Some(es[|es| - 1]) else before
  }

  /** The events of an order's deliveries that met an existing row. */
  function OntoRow(es: seq<Event>): seq<Event>
  {
    if es == [] then []
    else if FirstCreated(es[..|es| - 1]).None? then []
    else OntoRow(es[..|es| - 1]) + [es[|es| - 1]]
  }

  function StatusAfter(last: Option<Event>): Status
  {
    if last.None? then Pending else
      match last.value.payload
      case OrderConfirmed => Confirmed
      case PaymentProcessed(_, _, _) => Paid
      case OrderShipped(_, _) => Shipped
      case OrderDelivered => Delivered
      case OrderCancelled(_) => Cancelled
      case _ => Pending
  }

  /** What an order row shows after its CREATED and then the events `es`. */
  predicate Shows(row: OrderRow, created: Event, es: seq<Event>)
    requires created.payload.OrderCreated?
  {
    var touch, pay, ship := LastOf(Touches, es), LastOf(SetsPayment, es), LastOf(SetsTracking, es);
    && row.customerId == created.payload.customerId && row.customerEmail == created.payload.customerEmail
    && row.version == (if touch.Some? then touch.value.version else created.version)
    && row.status == StatusAfter(LastOf(SetsStatus, es))
    && row.paymentId == (if pay.Some? then PaymentIn(pay.value) else None)
    && row.trackingId == (if ship.Some? then TrackingIn(ship.value) else None)
  }

  function PaymentIn(e: Event): Option<Id>
  {
    if e.payload.PaymentProcessed? then Some(e.payload.paymentId) else None
  }

  function TrackingIn(e: Event): Option<Id>
  {
    if e.payload.OrderShipped? then Some(e.payload.trackingId) else None
  }

  lemma {:induction false} LastOfSnoc(which: Event -> bool, es: seq<Event>, e: Event)
    ensures LastOf(which, es + [e]) == if which(e) then Some(e) else LastOf(which, es)
  {
    assert (es + [e])[..|es|] == es;
  }

  lemma {:induction false} FirstCreatedIs(es: seq<Event>)
    ensures FirstCreated(es).Some? ==> FirstCreated(es).value in es && FirstCreated(es).value.payload.OrderCreated?
    ensures FirstCreated(es).None? <==> forall e :: e in es ==> !e.payload.OrderCreated?
  {
    if es != [] {
      FirstCreatedIs(es[..|es| - 1]);
      assert es == es[..|es| - 1] + [es[|es| - 1]];
    }
  }

  lemma {:induction false} ShowsNext(row: OrderRow, row': OrderRow, created: Event, es: seq<Event>, v: View, e: Event)
    requires created.payload.OrderCreated? && Shows(row, created, es) && v.row == Some(row)
    requires ProjectView(v, e).row == Some(row')
    ensures Shows(row', created, es + [e])
  {
    LastOfSnoc(Touches, es, e);
    LastOfSnoc(SetsStatus, es, e);
    LastOfSnoc(SetsPayment, es, e);
    LastOfSnoc(SetsTracking, es, e);
  }

  lemma RowAppears(v: View, e: Event)
    requires v.row.None?
    ensures e.payload.OrderCreated? ==> ProjectView(v, e).row.Some? && Shows(ProjectView(v, e).row.value, e, [])
    ensures !e.payload.OrderCreated? ==> ProjectView(v, e).row.None?
  {
  }

  lemma RowStays(v: View, e: Event)
    requires v.row.Some?
    ensures ProjectView(v, e).row.Some?
  {
  }

  /** Whatever was delivered and in whatever order: a row exists exactly when a CREATED was among it, and it shows the
      first CREATED and the last events that met the row. */
  lemma {:induction false} RowShows(es: seq<Event>)
    ensures var row, created := ProjectLog(ABSENT, es).row, FirstCreated(es);
            && (row.Some? <==> created.Some?)
            && (created.Some? ==> created.value.payload.OrderCreated? && Shows(row.value, created.value, OntoRow(es)))
  {
    if es != [] {
      var init, e := es[..|es| - 1], es[|es| - 1];
      RowShows(init);
      FoldSnoc(ProjectView, ABSENT, init, e);
      assert es == init + [e];
      RowShowsNext(ProjectLog(ABSENT, init), init, e);
    }
  }

  lemma {:induction false} RowShowsNext(v: View, init: seq<Event>, e: Event)
    requires v.row.Some? <==> FirstCreated(init).Some?
    requires var created := FirstCreated(init);
             created.Some? ==> created.value.payload.OrderCreated? && Shows(v.row.value, created.value, OntoRow(init))
    ensures var row, created := ProjectView(v, e).row, FirstCreated(init + [e]);
            && (row.Some? <==> created.Some?)
            && (created.Some? ==>
                  created.value.payload.OrderCreated? && Shows(row.value, created.value, OntoRow(init + [e])))
  {
    assert (init + [e])[..|init|] == init;
    if FirstCreated(init).None? {
      RowAppears(v, e);
    } else {
      RowStays(v, e);
      ShowsNext(v.row.value, ProjectView(v, e).row.value, FirstCreated(init).value, OntoRow(init), v, e);
    }
  }

  // ---------------------------------------------------------------- the same for the stored log

  lemma {:induction false} LastOfIs(which: Event -> bool, es: seq<Event>)
    ensures LastOf(which, es).Some? ==> LastOf(which, es).value in es && which(LastOf(which, es).value)
    ensures LastOf(which, es).None? <==> forall e :: e in es ==> !which(e)
  {
    if es != [] {
      LastOfIs(which, es[..|es| - 1]);
      assert es == es[..|es| - 1] + [es[|es| - 1]];
    }
  }

  lemma {:induction false} OntoRowIsPart(es: seq<Event>, e: Event)
    requires e in OntoRow(es)
    ensures e in es
  {
    if es != [] && e != es[|es| - 1] {
      OntoRowIsPart(es[..|es| - 1], e);
    }
  }

  /** A stored history starts with its only CREATED. */
  lemma {:induction false} StoredOntoRow(oid: Id, log: seq<Event>)
    requires Lawful(oid, log) && log != []
    ensures FirstCreated(log) == Some(log[0]) && OntoRow(log) == log[1..]
  {
    var n := |log| - 1;
    if n > 0 {
      StoredOntoRow(oid, log[..n]);
      assert log[1..] == log[..n][1..] + [log[n]];
    } else {
      LawfulAt(oid, log, 0);
      assert log[..0] == [] && FirstCreated([]).None?;
    }
  }

  lemma {:induction false} LastOfTail(which: Event -> bool, log: seq<Event>)
    requires log != [] && !which(log[0])
    ensures LastOf(which, log[1..]) == LastOf(which, log)
  {
    var n := |log| - 1;
    if n > 0 {
      LastOfTail(which, log[..n]);
      assert log[1..] == log[..n][1..] + [log[n]];
      LastOfSnoc(which, log[..n][1..], log[n]);
    } else {
      assert log[1..] == [] && log[..0] == [];
    }
  }

  lemma {:induction false} StoredShows(oid: Id, log: seq<Event>)
    requires Lawful(oid, log) && log != []
    ensures var o, touch := Replay(oid, log), LastOf(Touches, log);
            var pay, ship := LastOf(SetsPayment, log), LastOf(SetsTracking, log);
            && log[0].payload.OrderCreated? && log[0].version == 1
            && o.customerId == log[0].payload.customerId && o.customerEmail == log[0].payload.customerEmail
            && o.version == (if touch.Some? then touch.value.version else 1)
            && o.status == StatusAfter(LastOf(SetsStatus, log))
            && o.paymentId == (if pay.Some? then PaymentIn(pay.value) else None)
            && o.trackingId == (if ship.Some? then TrackingIn(ship.value) else None)
  {
    LawfulAt(oid, log, 0);
    LawfulInOrder(oid, log);
    FoldsAgree(oid, log);
    RowShows(log);
    StoredOntoRow(oid, log);
    LastOfTail(Touches, log);
    LastOfTail(SetsStatus, log);
    LastOfTail(SetsPayment, log);
    LastOfTail(SetsTracking, log);
  }

  // ---------------------------------------------------------------- comparing the two

  lemma {:induction false} VersionIdentifies(oid: Id, log: seq<Event>, e: Event, f: Event)
    requires Lawful(oid, log) && e in log && f in log && e.version == f.version
    ensures e == f
  {
    var i :| 0 <= i < |log| && log[i] == e;
    var j :| 0 <= j < |log| && log[j] == f;
    LawfulAt(oid, log, i);
    LawfulAt(oid, log, j);
  }

  lemma {:induction false} PaidOnce(oid: Id, log: seq<Event>, e: Event, f: Event)
    requires Lawful(oid, log) && e in log && f in log
    requires (SetsPayment(e) && SetsPayment(f)) || (SetsTracking(e) && SetsTracking(f))
    ensures e == f
  {
    var i :| 0 <= i < |log| && log[i] == e;
    var j :| 0 <= j < |log| && log[j] == f;
    if i < j {
      SettledOnce(oid, log, i, j);
    } else if j < i {
      SettledOnce(oid, log, j, i);
    }
  }

  lemma {:induction false} TouchedIsLater(oid: Id, log: seq<Event>, e: Event)
    requires Lawful(oid, log) && e in log
    ensures e.payload.OrderCreated? <==> e.version == 1
    ensures e.payload.OrderCreated? ==> e == log[0]
  {
    var i :| 0 <= i < |log| && log[i] == e;
    LawfulAt(oid, log, i);
    assert log[..i] == [] <==> i == 0;
  }

  /** A row made of stored events, against the aggregate of all of them. */
  ghost predicate RightExactlyWhen(row: OrderRow, o: Order, met: seq<Event>, log: seq<Event>)
  {
    && row.customerId == o.customerId && row.customerEmail == o.customerEmail
    && (row.version == o.version <==> LastOf(Touches, met) == LastOf(Touches, log))
    && (row.status == o.status <==> StatusAfter(LastOf(SetsStatus, met)) == StatusAfter(LastOf(SetsStatus, log)))
    && (row.paymentId == o.paymentId <==> LastOf(SetsPayment, met) == LastOf(SetsPayment, log))
    && (row.trackingId == o.trackingId <==> LastOf(SetsTracking, met) == LastOf(SetsTracking, log))
  }

  lemma {:induction false} SameVersionIff(oid: Id, log: seq<Event>, met: seq<Event>)
    requires Lawful(oid, log) && log != [] && forall e :: e in met ==> e in log
    ensures var a, b := LastOf(Touches, met), LastOf(Touches, log);
            (if a.Some? then a.value.version else 1) == (if b.Some? then b.value.version else 1) <==> a == b
  {
    var a, b := LastOf(Touches, met), LastOf(Touches, log);
    LastOfIs(Touches, met);
    LastOfIs(Touches, log);
    if a.Some? {
      TouchedIsLater(oid, log, a.value);
    }
    if b.Some? {
      TouchedIsLater(oid, log, b.value);
    }
    if a.Some? && b.Some? && a.value.version == b.value.version {
      VersionIdentifies(oid, log, a.value, b.value);
    }
  }

  lemma {:induction false} SamePaymentIff(oid: Id, log: seq<Event>, met: seq<Event>)
    requires Lawful(oid, log) && forall e :: e in met ==> e in log
    ensures var a, b := LastOf(SetsPayment, met), LastOf(SetsPayment, log);
            (if a.Some? then PaymentIn(a.value) else None) == (if b.Some? then PaymentIn(b.value) else None) <==> a == b
  {
    var a, b := LastOf(SetsPayment, met), LastOf(SetsPayment, log);
    LastOfIs(SetsPayment, met);
    LastOfIs(SetsPayment, log);
    if a.Some? && b.Some? {
      PaidOnce(oid, log, a.value, b.value);
    }
  }

  lemma {:induction false} SameTrackingIff(oid: Id, log: seq<Event>, met: seq<Event>)
    requires Lawful(oid, log) && forall e :: e in met ==> e in log
    ensures var a, b := LastOf(SetsTracking, met), LastOf(SetsTracking, log);
            (if a.Some? then TrackingIn(a.value) else None) == (if b.Some? then TrackingIn(b.value) else None) <==>
                a == b
  {
    var a, b := LastOf(SetsTracking, met), LastOf(SetsTracking, log);
    LastOfIs(SetsTracking, met);
    LastOfIs(SetsTracking, log);
    if a.Some? && b.Some? {
      PaidOnce(oid, log, a.value, b.value);
    }
  }

  /** Any delivery of stored events, however ordered and repeated, that includes the CREATED. */
  lemma {:induction false} DeliveredHeader(oid: Id, log: seq<Event>, d: seq<Event>)
    requires Lawful(oid, log) && log != [] && (forall e :: e in d ==> e in log) && log[0] in d
    ensures var row := ProjectLog(ABSENT, d).row;
            row.Some? && RightExactlyWhen(row.value, Replay(oid, log), OntoRow(d), log)
  {
    var met := OntoRow(d);
    StoredShows(oid, log);
    FirstCreatedIs(d);
    RowShows(d);
    TouchedIsLater(oid, log, FirstCreated(d).value);
    forall e | e in met ensures e in log {
      OntoRowIsPart(d, e);
    }
    SameVersionIff(oid, log, met);
    SamePaymentIff(oid, log, met);
    SameTrackingIff(oid, log, met);
  }

  // ---------------------------------------------------------------- main result

  /** After every run of the whole system in which sends to the queue arrive: once an order's stored events are all
      published and nothing of it is on its way, its row has the right customer, and it has the right version, status,
      payment and tracking if and only if, of the projections that met the row, the last that sets the field is the last
      stored one that sets it (for the status: sets the same one). */
  lemma {:induction false} HeaderIsRightIff(partitions: nat, moves: seq<Pipeline.Move>, oid: Id)
    requires forall i :: 0 <= i < |moves| ==> Arrives(moves[i])
    requires var s := Pipeline.Run(partitions, moves);
             && Quiet(s, oid) && OrderLog(s.write.docs, oid) != []
             && (forall e :: e in OrderLog(s.write.docs, oid) ==> OnTopic(s.write.topic, e))
    ensures var s := Pipeline.Run(partitions, moves);
            var rebuilt, row := RebuildOrder(EventsOf(s.write.docs, oid)), ViewOf(s.c.tables, oid).row;
            var met := OntoRow(OrderLog(Projections(partitions, moves), oid));
            && rebuilt.Some? && row.Some?
            && RightExactlyWhen(row.value, rebuilt.value, met, OrderLog(s.write.docs, oid))
  {
    RunIsSound(partitions, moves);
    RunIsTraced(partitions, moves);
    var s, es := Pipeline.Run(partitions, moves), Projections(partitions, moves);
    VersionsCoincide(s.write.docs, oid, |OrderLog(s.write.docs, oid)|);
    TracedHeader(s, oid, es);
  }

  lemma {:induction false} TracedHeader(s: System, oid: Id, es: seq<Event>)
    requires Sound(s) && Traced(s, es) && Quiet(s, oid) && OrderLog(s.write.docs, oid) != []
    requires forall e :: e in OrderLog(s.write.docs, oid) ==> OnTopic(s.write.topic, e)
    ensures var row, log := ViewOf(s.c.tables, oid).row, OrderLog(s.write.docs, oid);
            row.Some? && RightExactlyWhen(row.value, Replay(oid, log), OntoRow(OrderLog(es, oid)), log)
  {
    var log, d := OrderLog(s.write.docs, oid), OrderLog(es, oid);
    forall e | e in d ensures e in log {
      OrderLogElements(es, oid, e);
      OrderLogElements(s.write.docs, oid, e);
    }
    OrderLogElements(s.write.docs, oid, log[0]);
    QuietIsProjected(s, oid, log[0]);
    OrderLogElements(es, oid, log[0]);
    ProjectAllIsLocal(EMPTY, es, oid);
    assert ViewOf(EMPTY, oid) == ABSENT;
    DeliveredHeader(oid, log, d);
  }
}
