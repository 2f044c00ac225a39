/** The order aggregate: replay of events, business rules (api/services/aggregate.py). */
module Aggregate {
  import opened Events
  import opened Seqs

  datatype Item = Item(productId: Id, productName: string, quantity: int, unitPrice: int, lineTotal: int)

  /** The aggregate's fields as a value. */
  datatype Order = Order(
    orderId: Id, version: int, status: Status, customerId: Id, customerEmail: string,
    items: seq<Item>, total: int, paymentId: Option<Id>, trackingId: Option<Id>)

  function NewOrder(oid: Id): Order
  {
    Order(oid, 0, Pending, "", "", [], 0, None, None)
  }

  function ItemOf(p: Payload): Item
    requires p.ItemAdded?
  {
    Item(p.productId, p.productName, p.quantity, p.unitPrice, p.lineTotal)
  }

  /** The effect of one event on the aggregate. */
  function Apply(o: Order, e: Event): Order
  {
    var v := o.(version := e.version);
    match e.payload
    case OrderCreated(customerId, email) => v.(customerId := customerId, customerEmail := email, status := Pending)
    case ItemAdded(_, _, _, _, lineTotal) => v.(items := o.items + [ItemOf(e.payload)], total := o.total + lineTotal)
    case OrderConfirmed => v.(status := Confirmed)
    case PaymentProcessed(paymentId, _, _) => v.(status := Paid, paymentId := Some(paymentId))
    case OrderShipped(trackingId, _) => v.(status := Shipped, trackingId := Some(trackingId))
    case OrderDelivered => v.(status := Delivered)
    case OrderCancelled(_) => v.(status := Cancelled)
  }

  /** The aggregate after the events of `es`, taken in the given order. */
  function Replay(oid: Id, es: seq<Event>): Order
  {
    Fold(Apply, NewOrder(oid), es)
  }

  lemma {:induction false} ReplaySnoc(oid: Id, es: seq<Event>, e: Event)
    ensures Replay(oid, es + [e]) == Apply(Replay(oid, es), e)
  {
    assert (es + [e])[..|es|] == es;
  }

  // ---------------------------------------------------------------- business rules

  /** The `assert_can_*` guard in front of each event; nothing creates an existing order or delivers one. */
  predicate CanApply(o: Order, p: Payload)
  {
    match p
    case OrderCreated(_, _) => false
    case ItemAdded(_, _, _, _, _) => o.status == Pending
    case OrderConfirmed => o.items != [] && o.status == Pending
    case PaymentProcessed(_, _, _) => o.status == Confirmed
    case OrderShipped(_, _) => o.status == Paid
    case OrderDelivered => false
    case OrderCancelled(_) => o.status != Shipped && o.status != Delivered
  }

  /** `e` is a legal next event after exactly the events `past` of order `oid`. */
  ghost predicate Admissible(oid: Id, past: seq<Event>, e: Event)
  {
    && e.orderId == oid
    && e.version == |past| + 1
    && Issuable(e.payload)
    && if past == [] then e.payload.OrderCreated? else CanApply(Replay(oid, past), e.payload)
  }

  /** Every event was legal in the state folded from exactly the events before it. */
  ghost predicate Lawful(oid: Id, es: seq<Event>)
  {
    es == [] || (Lawful(oid, es[..|es| - 1]) && Admissible(oid, es[..|es| - 1], es[|es| - 1]))
  }

  lemma {:induction false} LawfulSnoc(oid: Id, es: seq<Event>, e: Event)
    ensures Lawful(oid, es + [e]) <==> Lawful(oid, es) && Admissible(oid, es, e)
  {
    assert (es + [e])[..|es|] == es;
  }

  /** In a lawful log the event at index `i` has version i+1 and was legal after exactly the `i` events before it. */
  lemma {:induction false} LawfulAt(oid: Id, es: seq<Event>, i: nat)
    requires Lawful(oid, es) && i < |es|
    ensures Lawful(oid, es[..i]) && Admissible(oid, es[..i], es[i])
  {
    var init := es[..|es| - 1];
    if i < |es| - 1 {
      LawfulAt(oid, init, i);
      assert init[..i] == es[..i];
    }
  }

  /** After a lawful log the aggregate's version is the number of events. */
  lemma {:induction false} LawfulVersion(oid: Id, es: seq<Event>)
    requires Lawful(oid, es)
    ensures Replay(oid, es).version == |es|
    ensures Replay(oid, es).orderId == oid
  {
    ReplayKeepsOrderId(oid, es);
  }

  lemma {:induction false} ReplayKeepsOrderId(oid: Id, es: seq<Event>)
    ensures Replay(oid, es).orderId == oid
  {
    if es != [] {
      ReplayKeepsOrderId(oid, es[..|es| - 1]);
    }
  }

  // ---------------------------------------------------------------- the language of lawful logs

  datatype Kind = KCreated | KItem | KConfirmed | KPaid | KShipped | KDelivered | KCancelled

  function KindOf(p: Payload): Kind
  {
    match p
    case OrderCreated(_, _) => KCreated
    case ItemAdded(_, _, _, _, _) => KItem
    case OrderConfirmed => KConfirmed
    case PaymentProcessed(_, _, _) => KPaid
    case OrderShipped(_, _) => KShipped
    case OrderDelivered => KDelivered
    case OrderCancelled(_) => KCancelled
  }

  function Kinds(es: seq<Event>): seq<Kind>
  {
    seq(|es|, i requires 0 <= i < |es| => KindOf(es[i].payload))
  }

  function Times(k: Kind, n: nat): seq<Kind>
  {
    seq(n, _ => k)
  }

  /** CREATED ITEM^n, then the first `stage` of CONFIRMED PAID SHIPPED, then CANCELLED^c. */
  function Word(n: nat, stage: nat, c: nat): seq<Kind>
    requires stage <= 3
  {
    [KCreated] + Times(KItem, n) + [KConfirmed, KPaid, KShipped][..stage] + Times(KCancelled, c)
  }

  /** Confirming takes an item, and a shipped order is never cancelled. */
  predicate Form(n: nat, stage: nat, c: nat)
  {
    stage <= 3 && (stage > 0 ==> n > 0) && (stage == 3 ==> c == 0)
  }

  /** CREATED ITEM* CANCELLED*, CREATED ITEM+ CONFIRMED CANCELLED*, CREATED ITEM+ CONFIRMED PAID CANCELLED*
      or CREATED ITEM+ CONFIRMED PAID SHIPPED. */
  ghost predicate InLanguage(ks: seq<Kind>)
  {
    exists n: nat, stage: nat, c: nat :: Form(n, stage, c) && ks == Word(n, stage, c)
  }

  function FormStatus(stage: nat, c: nat): Status
    requires stage <= 3
  {
    if c > 0 then Cancelled
    else if stage == 0 then Pending
    else if stage == 1 then Confirmed
    else if stage == 2 then Paid
    else Shipped
  }

  /** The letter at position `i` of a word. */
  function Letter(n: nat, stage: nat, i: nat): Kind
    requires stage <= 3
  {
    if i == 0 then KCreated
    else if i <= n then KItem
    else if i > n + stage then KCancelled
    else if i == n + 1 then KConfirmed
    else if i == n + 2 then KPaid
    else KShipped
  }

  lemma WordLetters(n: nat, stage: nat, c: nat)
    requires stage <= 3
    ensures |Word(n, stage, c)| == 1 + n + stage + c
    ensures forall i :: 0 <= i < |Word(n, stage, c)| ==> Word(n, stage, c)[i] == Letter(n, stage, i)
  {
  }

  /** Two words of which the second has one more letter agree when the first is a prefix of the second. */
  lemma {:induction false} WordSnoc(n: nat, stage: nat, c: nat, n': nat, stage': nat, c': nat, ks: seq<Kind>, k: Kind)
    requires stage <= 3 && stage' <= 3 && ks == Word(n, stage, c)
    requires n + stage + c + 1 == n' + stage' + c'
    requires k == Letter(n', stage', n' + stage' + c')
    requires forall i :: 0 <= i < |ks| ==> Letter(n, stage, i) == Letter(n', stage', i)
    ensures ks + [k] == Word(n', stage', c')
  {
    WordLetters(n, stage, c);
    WordLetters(n', stage', c');
  }

  lemma KindsSnoc(es: seq<Event>, e: Event)
    ensures Kinds(es + [e]) == Kinds(es) + [KindOf(e.payload)]
  {
  }

  /** A legal event extends the word of the aggregate's history by its own letter. */
  lemma {:induction false} FormStep(o: Order, e: Event, ks: seq<Kind>, stage0: nat, c0: nat)
      returns (stage: nat, c: nat)
    requires Form(|o.items|, stage0, c0) && o.status == FormStatus(stage0, c0) && ks == Word(|o.items|, stage0, c0)
    requires CanApply(o, e.payload)
    ensures Form(|Apply(o, e).items|, stage, c) && Apply(o, e).status == FormStatus(stage, c)
    ensures ks + [KindOf(e.payload)] == Word(|Apply(o, e).items|, stage, c)
  {
    stage, c := stage0, c0;
    if e.payload.OrderCancelled? {
      c := c0 + 1;
    } else if !e.payload.ItemAdded? {
      stage := stage0 + 1;
    }
    WordLetters(|o.items|, stage0, c0);
    WordSnoc(|o.items|, stage0, c0, |Apply(o, e).items|, stage, c, ks, KindOf(e.payload));
  }

  /** A lawful log spells a word whose parts are the aggregate's item count and status. */
  lemma {:induction false} LawfulForm(oid: Id, es: seq<Event>) returns (stage: nat, c: nat)
    requires Lawful(oid, es) && es != []
    ensures Form(|Replay(oid, es).items|, stage, c) && Replay(oid, es).status == FormStatus(stage, c)
    ensures Kinds(es) == Word(|Replay(oid, es).items|, stage, c)
  {
    var past, e := es[..|es| - 1], es[|es| - 1];
    assert es == past + [e];
    ReplaySnoc(oid, past, e);
    if past == [] {
      stage, c := 0, 0;
      assert Kinds(es) == Word(0, 0, 0);
    } else {
      stage, c := LawfulForm(oid, past);
      stage, c := FormStep(Replay(oid, past), e, Kinds(past), stage, c);
      KindsSnoc(past, e);
    }
  }

  /** Numbering, ownership and payloads, without any business rule. */
  ghost predicate Numbered(oid: Id, es: seq<Event>)
  {
    forall i :: 0 <= i < |es| ==> es[i].orderId == oid && es[i].version == i + 1 && Issuable(es[i].payload)
  }

  /** A word determines its parts. */
  lemma {:induction false} WordIsUnique(n: nat, stage: nat, c: nat, n': nat, stage': nat, c': nat)
    requires Form(n, stage, c) && Form(n', stage', c') && Word(n, stage, c) == Word(n', stage', c')
    ensures n == n' && stage == stage' && c == c'
  {
    WordLetters(n, stage, c);
    WordLetters(n', stage', c');
    assert Letter(n, stage, n + 1) != KItem && Letter(n', stage', n' + 1) != KItem;
    assert Letter(n, stage, n + stage + 1) == KCancelled && Letter(n', stage', n' + stage' + 1) == KCancelled;
  }

  /** A word without its last letter is a word, and the guard lets the last letter follow it. */
  lemma {:induction false} WordWithoutLast(n: nat, stage: nat, c: nat, ks: seq<Kind>)
      returns (n': nat, stage': nat, c': nat)
    requires Form(n, stage, c) && ks == Word(n, stage, c) && |ks| > 1
    ensures Form(n', stage', c') && ks[..|ks| - 1] == Word(n', stage', c')
    ensures forall o: Order, p: Payload ::
              (|o.items| == n' && o.status == FormStatus(stage', c') && KindOf(p) == ks[|ks| - 1]) ==> CanApply(o, p)
  {
    n', stage', c' := n, stage, c;
    WordLetters(n, stage, c);
    if c > 0 { c' := c - 1; } else if stage > 0 { stage' := stage - 1; } else { n' := n - 1; }
    WordLetters(n', stage', c');
  }

  /** The converse: a numbered log that spells a word of the language obeys every guard. */
  lemma {:induction false} WordIsLawful(oid: Id, es: seq<Event>, n: nat, stage: nat, c: nat)
    requires Numbered(oid, es) && Form(n, stage, c) && Kinds(es) == Word(n, stage, c)
    ensures Lawful(oid, es)
  {
    WordLetters(n, stage, c);
    var past, e := es[..|es| - 1], es[|es| - 1];
    if past == [] {
      assert Kinds(es)[0] == KCreated;
    } else {
      var n', stage', c' := WordWithoutLast(n, stage, c, Kinds(es));
      assert Kinds(past) == Kinds(es)[..|es| - 1];
      WordIsLawful(oid, past, n', stage', c');
      var stage0, c0 := LawfulForm(oid, past);
      WordIsUnique(n', stage', c', |Replay(oid, past).items|, stage0, c0);
      assert CanApply(Replay(oid, past), e.payload);
    }
  }

  /** The business rules admit exactly the histories of the language. */
  lemma {:induction false} LawfulIffLanguage(oid: Id, es: seq<Event>)
    requires es != []
    ensures Lawful(oid, es) <==> Numbered(oid, es) && InLanguage(Kinds(es))
  {
    if Lawful(oid, es) {
      var stage, c := LawfulForm(oid, es);
      forall i | 0 <= i < |es| ensures es[i].orderId == oid && es[i].version == i + 1 && Issuable(es[i].payload) {
        LawfulAt(oid, es, i);
      }
    }
    if Numbered(oid, es) && InLanguage(Kinds(es)) {
      var n: nat, stage: nat, c: nat :| Form(n, stage, c) && Kinds(es) == Word(n, stage, c);
      WordIsLawful(oid, es, n, stage, c);
    }
  }

  /** At most one payment, nothing after a shipment, and only cancellations after a cancellation. */
  lemma {:induction false} SettledOnce(oid: Id, es: seq<Event>, i: nat, j: nat)
    requires Lawful(oid, es) && i < j < |es|
    ensures !es[i].payload.OrderShipped?
    ensures es[i].payload.PaymentProcessed? ==> !es[j].payload.PaymentProcessed?
    ensures es[i].payload.OrderCancelled? ==> es[j].payload.OrderCancelled?
  {
    var stage, c := LawfulForm(oid, es);
    var n := |Replay(oid, es).items|;
    WordLetters(n, stage, c);
    assert Kinds(es)[i] == Letter(n, stage, i) && Kinds(es)[j] == Letter(n, stage, j);
  }

  /** Once a cancellation is stored the order stays cancelled, whatever is stored later. */
  lemma {:induction false} CancelledForGood(oid: Id, es: seq<Event>, e: Event)
    requires Lawful(oid, es) && e in es && e.payload.OrderCancelled?
    ensures Replay(oid, es).status == Cancelled
  {
    var i :| 0 <= i < |es| && es[i] == e;
    var last := |es| - 1;
    if i < last {
      SettledOnce(oid, es, i, last);
    }
    ReplaySnoc(oid, es[..last], es[last]);
    assert es == es[..last] + [es[last]];
  }
}
