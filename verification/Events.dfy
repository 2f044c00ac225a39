/** Domain events, commands and the event factories (api/models/events.py). Money is in integer cents. */
module Events {

  type Id = string

  datatype Option<+T> = None | Some(value: T)

  /** How a call to an outside service ends: it returns, it takes effect but raises, or it raises without effect. */
  datatype Outcome = Ok | LostReply | Raised

  datatype Status = Pending | Confirmed | Paid | Shipped | Delivered | Cancelled

  datatype Payload =
    | OrderCreated(customerId: Id, customerEmail: string)
    | ItemAdded(productId: Id, productName: string, quantity: int, unitPrice: int, lineTotal: int)
    | OrderConfirmed
    | PaymentProcessed(paymentId: Id, amount: int, payMethod: string)
    | OrderShipped(trackingId: Id, carrier: string)
    | OrderDelivered
    | OrderCancelled(reason: string)

  datatype Event = Event(eventId: Id, orderId: Id, version: int, payload: Payload)

  /** Request bodies of the six command endpoints. */
  datatype Command =
    | CreateOrder(customerId: Id, customerEmail: string)
    | AddItem(productId: Id, productName: string, quantity: int, unitPrice: int)
    | ConfirmOrder
    | ProcessPayment(paymentId: Id, amount: int, payMethod: string)
    | ShipOrder(trackingId: Id, carrier: string)
    | CancelOrder(reason: string)

  /** What request validation lets through. */
  predicate ValidRequest(c: Command)
  {
    match c
    case AddItem(_, _, quantity, unitPrice) => quantity > 0 && unitPrice > 0
    case ProcessPayment(_, amount, _) => amount > 0
    case _ => true
  }

  /** The payload an event factory builds for a command. */
  function PayloadOf(c: Command): Payload
  {
    match c
    case CreateOrder(customerId, email) => OrderCreated(customerId, email)
    case AddItem(productId, name, quantity, unitPrice) =>
      ItemAdded(productId, name, quantity, unitPrice, quantity * unitPrice)
    case ConfirmOrder => OrderConfirmed
    case ProcessPayment(paymentId, amount, payMethod) => PaymentProcessed(paymentId, amount, payMethod)
    case ShipOrder(trackingId, carrier) => OrderShipped(trackingId, carrier)
    case CancelOrder(reason) => OrderCancelled(reason)
  }

  /** The payloads that some valid command produces. */
  ghost predicate Issuable(p: Payload)
  {
    exists c :: ValidRequest(c) && PayloadOf(c) == p
  }

  /** An issued line has a positive total, the product of its quantity and price. */
  lemma {:induction false} IssuedLineIsPositive(p: Payload)
    requires Issuable(p) && p.ItemAdded?
    ensures p.quantity > 0 && p.unitPrice > 0 && p.lineTotal == p.quantity * p.unitPrice > 0
  {
    var c :| ValidRequest(c) && PayloadOf(c) == p;
    assert c.AddItem?;
    PositiveProduct(c.quantity, c.unitPrice);
  }

  lemma PositiveProduct(a: int, b: int)
    requires a > 0 && b > 0
    ensures a * b > 0
  {
  }

  /** The events of one order, in the order in which they occur in `es`. */
  function OrderLog(es: seq<Event>, oid: Id): seq<Event>
  {
    if es == [] then [] else
      var init := OrderLog(es[..|es| - 1], oid);
      if es[|es| - 1].orderId == oid then init + [es[|es| - 1]] else init
  }

  lemma {:induction false} OrderLogSnoc(es: seq<Event>, e: Event, oid: Id)
    ensures OrderLog(es + [e], oid) == if e.orderId == oid then OrderLog(es, oid) + [e] else OrderLog(es, oid)
  {
    assert (es + [e])[..|es|] == es;
  }

  lemma {:induction false} OrderLogConcat(a: seq<Event>, b: seq<Event>, oid: Id)
    ensures OrderLog(a + b, oid) == OrderLog(a, oid) + OrderLog(b, oid)
  {
    if b == [] {
      assert a + b == a;
    } else {
      var n := |b| - 1;
      OrderLogConcat(a, b[..n], oid);
      OrderLogSnoc(a + b[..n], b[n], oid);
      assert a + b == a + b[..n] + [b[n]];
    }
  }

  /** An order's log holds exactly that order's events. */
  lemma {:induction false} OrderLogElements(es: seq<Event>, oid: Id, e: Event)
    ensures e in OrderLog(es, oid) <==> e in es && e.orderId == oid
  {
    if es != [] {
      OrderLogElements(es[..|es| - 1], oid, e);
      assert es == es[..|es| - 1] + [es[|es| - 1]];
    }
  }

  /** A log of one order is its own. */
  lemma {:induction false} OwnLog(es: seq<Event>, oid: Id)
    requires forall i :: 0 <= i < |es| ==> es[i].orderId == oid
    ensures OrderLog(es, oid) == es
  {
    if es != [] {
      OwnLog(es[..|es| - 1], oid);
      assert es == es[..|es| - 1] + [es[|es| - 1]];
    }
  }

  predicate HasId(es: seq<Event>, id: Id)
  {
    exists i :: 0 <= i < |es| && es[i].eventId == id
  }

  /** `es` with every event dropped whose event id occurred before. */
  function FirstCopies(es: seq<Event>): seq<Event>
  {
    if es == [] then [] else
      var n := |es| - 1;
      if HasId(es[..n], es[n].eventId) then FirstCopies(es[..n]) else FirstCopies(es[..n]) + [es[n]]
  }

  lemma {:induction false} FirstCopiesSnoc(es: seq<Event>, e: Event)
    ensures FirstCopies(es + [e]) == if HasId(es, e.eventId) then FirstCopies(es) else FirstCopies(es) + [e]
  {
    assert (es + [e])[..|es|] == es;
  }

  /** Event ids identify events. */
  ghost predicate IdsIdentify(es: seq<Event>)
  {
    forall i, j :: 0 <= i < |es| && 0 <= j < |es| && es[i].eventId == es[j].eventId ==> es[i] == es[j]
  }

  ghost predicate DistinctIds(es: seq<Event>)
  {
    forall i, j :: 0 <= i < j < |es| ==> es[i].eventId != es[j].eventId
  }

  lemma {:induction false} FirstCopiesSubset(es: seq<Event>, e: Event)
    requires e in FirstCopies(es)
    ensures e in es
  {
    var n := |es| - 1;
    if e != es[n] {
      FirstCopiesSubset(es[..n], e);
    }
  }

  /** Dropping repeats removes no event when ids identify events. */
  lemma {:induction false} FirstCopiesElements(es: seq<Event>, e: Event)
    requires IdsIdentify(es)
    ensures e in FirstCopies(es) <==> e in es
  {
    if es != [] {
      var n := |es| - 1;
      FirstCopiesElements(es[..n], e);
      assert es == es[..n] + [es[n]];
    }
  }
}
