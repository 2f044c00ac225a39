/** The projection consumer as a machine of single steps (`consume` in consumers/main.py): dedup check, projection,
    cache invalidation, dedup mark, expiry stamp, offset commit, with the exception path to the dead letter queue. */
module Consumer {
  import opened Events
  import opened ReadModel
  import opened Topics

  /** What the loop body does next with the current message. */
  datatype Point =
    | AtCheck | AtProject | AtInvalidate | AtMark | AtStamp
    | AtCommit     // the commit inside the try block
    | AtDlq        // an exception was caught
    | AtClose      // the commit outside the try block: message skipped, or handed to the queue

  datatype Phase = Polling | Busy(p: nat, off: nat, m: Message, at: Point)

  /** `processed`: dedup keys in Redis; `dlq`: queue messages by receipt, `sends` of them so far;
      `projected`: history of the events whose transaction committed. */
  datatype State = State(
    committed: seq<nat>, phase: Phase, tables: Tables, processed: set<Id>, cache: map<Id, View>,
    dlq: map<nat, Message>, sends: nat, projected: set<Event>)

  datatype Action =
    | Fetch(p: nat)
    | Check
    | ProjectStep(outcome: Outcome)
    | Invalidate(outcome: Outcome)
    | Mark(outcome: Outcome)
    | Stamp(outcome: Outcome)
    | Commit(outcome: Outcome)
    | SendDlq(outcome: Outcome)
    | Crash
    | ExpireKey(eventId: Id)

  function Start(partitions: nat): State
  {
    State(seq(partitions, _ => 0), Polling, EMPTY, {}, map[], map[], 0, {})
  }

  /** Inside the try block an exception leads to the queue. */
  function GoOn(c: State, outcome: Outcome, next: Point): State
    requires c.phase.Busy?
  {
    c.(phase := c.phase.(at := if outcome == Ok then next else AtDlq))
  }

  predicate Terminal(p: Payload)
  {
    p.OrderDelivered? || p.OrderCancelled?
  }

  ghost function AfterProject(c: State, outcome: Outcome): State
    requires c.phase.Busy?
  {
    var e := c.phase.m.event;
    var result := Project(c.tables, e);
    if outcome == Raised || result.None? then GoOn(c, Raised, AtDlq)
    else GoOn(c.(tables := result.value, projected := c.projected + {e}), outcome, AtInvalidate)
  }

  function AfterCommit(c: State, outcome: Outcome): State
    requires c.phase.Busy? && c.phase.p < |c.committed|
  {
    var c' := if outcome == Raised then c else c.(committed := c.committed[c.phase.p := c.phase.off + 1]);
    if outcome == Ok || c.phase.at == AtClose then c'.(phase := Polling) else GoOn(c', outcome, AtDlq)
  }

  predicate IsAt(c: State, at: Point)
  {
    c.phase.Busy? && c.phase.at == at
  }

  /** One atomic step of the consumer on the given topic; an action that is not enabled changes nothing. */
  ghost function Step(topic: Topic, c: State, a: Action): State
  {
    match a
    case Fetch(p) =>
      if c.phase.Polling? && p < |topic| && p < |c.committed| && c.committed[p] < |topic[p]|
      then c.(phase := Busy(p, c.committed[p], topic[p][c.committed[p]], AtCheck)) else c
    case Check =>
      if !IsAt(c, AtCheck) then c
      else c.(phase := c.phase.(at := if c.phase.m.event.eventId in c.processed then AtClose else AtProject))
    case ProjectStep(outcome) =>
      if !IsAt(c, AtProject) then c else AfterProject(c, outcome)
    case Invalidate(outcome) =>
      if !IsAt(c, AtInvalidate) then c
      else GoOn(if outcome == Raised then c else c.(cache := c.cache - {c.phase.m.event.orderId}), outcome, AtMark)
    case Mark(outcome) =>
      if !IsAt(c, AtMark) then c
      else
        var c' := if outcome == Raised then c else c.(processed := c.processed + {c.phase.m.event.eventId});
        GoOn(c', outcome, AtStamp)
    case Stamp(outcome) =>
      if !IsAt(c, AtStamp) then c
      else GoOn(c, if Terminal(c.phase.m.event.payload) then outcome else Ok, AtCommit)
    case Commit(outcome) =>
      if (!IsAt(c, AtCommit) && !IsAt(c, AtClose)) || c.phase.p >= |c.committed| then c else AfterCommit(c, outcome)
    case SendDlq(outcome) =>
      if !IsAt(c, AtDlq) then c
      else AfterSend(c, outcome)
    case Crash => c.(phase := Polling)
    case ExpireKey(id) => c.(processed := c.processed - {id})
  }

  /** `send_to_dlq` swallows its own failure. */
  function AfterSend(c: State, outcome: Outcome): State
    requires c.phase.Busy?
  {
    var c' := c.(phase := c.phase.(at := AtClose));
    if outcome == Raised then c' else c'.(dlq := c.dlq[c.sends := c.phase.m], sends := c.sends + 1)
  }
}
