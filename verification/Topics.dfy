/** The Kafka topic: a fixed number of append-only partitions, keyed by order id (api/services/publisher.py). */
module Topics {
  import opened Events

  /** An event on the wire; `retryCount` is what the retry handler writes into a re-published event. */
  datatype Message = Message(event: Event, retryCount: nat)

  type Topic = seq<seq<Message>>

  function EmptyTopic(n: nat): Topic
  {
    seq(n, _ => [])
  }

  /** The partitioner: some fixed function of the key and the number of partitions. The choice names the key because it
      may depend on it. */
  ghost function PartitionOf(key: Id, n: nat): (p: nat)
    requires n > 0
    ensures p < n
  {
    var p: nat :| p < n && |key| >= 0; p
  }

  function Put(t: Topic, p: nat, m: Message): Topic
    requires p < |t|
  {
    t[p := t[p] + [m]]
  }

  function EventsIn(ms: seq<Message>): seq<Event>
  {
    seq(|ms|, i requires 0 <= i < |ms| => ms[i].event)
  }

  lemma EventsInSnoc(ms: seq<Message>, m: Message)
    ensures EventsIn(ms + [m]) == EventsIn(ms) + [m.event]
  {
  }
}
