/** One invocation of the retry handler over the messages it received (lambda_handlers/retry_handler.py). */
module RetryHandler {
  import opened Consumer
  import opened Events
  import opened RetryCircuit
  import opened Seqs
  import opened Topics

  /** A received message, the partition its re-publication would go to, and how the calls made for it end. */
  datatype Received = Received(id: nat, body: Message, p: nat, act: Outcome, delete: Outcome)

  predicate Exhausted(r: Received)
  {
    r.body.retryCount >= MAX_RETRIES
  }

  /** The handler's steps for one message: a failed re-publication is not followed by a delete. */
  function MovesFor(r: Received): seq<Move>
  {
    var act := if Exhausted(r) then DeadLetter(r.id, r.act) else Republish(r.id, r.p, r.act);
    if r.act == Ok then [act] + [Delete(r.id, r.delete)] else [act]
  }

  /** A failing put or delete ends the invocation; a failing re-publication does not. */
  predicate Aborts(r: Received)
  {
    if r.act == Ok then r.delete != Ok else Exhausted(r)
  }

  function Moves(received: seq<Received>): seq<Move>
  {
    if received == [] then []
    else MovesFor(received[0]) + if Aborts(received[0]) then [] else Moves(received[1..])
  }

  predicate CompletesAll(received: seq<Received>)
  {
    forall i :: 0 <= i < |received| ==> !Aborts(received[i])
  }

  /** What is left of the queue when no message aborts. */
  function Remaining(dlq: map<nat, Message>, received: seq<Received>): map<nat, Message>
  {
    if received == [] then dlq else
      var before, last := Remaining(dlq, received[..|received| - 1]), received[|received| - 1];
      if last.act == Ok then before - {last.id} else before
  }

  ghost predicate Removed(received: seq<Received>, id: nat)
  {
    exists i :: 0 <= i < |received| && received[i].id == id && received[i].act == Ok
  }

  /** The queue keeps exactly the messages that were not received or could not be re-published. */
  lemma {:induction false} RemainingKeeps(dlq: map<nat, Message>, received: seq<Received>, id: nat)
    ensures id in Remaining(dlq, received) <==> id in dlq && !Removed(received, id)
    ensures id in Remaining(dlq, received) ==> Remaining(dlq, received)[id] == dlq[id]
  {
    if received != [] {
      var init, last := received[..|received| - 1], received[|received| - 1];
      RemainingKeeps(dlq, init, id);
      assert received == init + [last];
      if Removed(init, id) {
        var i :| 0 <= i < |init| && init[i].id == id && init[i].act == Ok;
        assert received[i].id == id;
      }
    }
  }

  lemma {:induction false} StillThere(dlq: map<nat, Message>, received: seq<Received>, k: nat)
    requires k < |received| && received[k].id in dlq
    requires forall i, j :: 0 <= i < j < |received| ==> received[i].id != received[j].id
    ensures var left := Remaining(dlq, received[..k]);
        received[k].id in left && left[received[k].id] == dlq[received[k].id]
  {
    RemainingKeeps(dlq, received[..k], received[k].id);
    assert forall i :: 0 <= i < k ==> received[..k][i] == received[i];
  }

  lemma {:induction false} RemainingSnoc(
      dlq: map<nat, Message>, received: seq<Received>, k: nat, before: map<nat, Message>)
    requires k < |received| && before == Remaining(dlq, received[..k]) && received[k].id in before
    ensures Remaining(dlq, received[..k + 1]) == if received[k].act == Ok then before - {received[k].id} else before
    ensures |before| == |Remaining(dlq, received[..k + 1])| + if received[k].act == Ok then 1 else 0
  {
    assert received[..k + 1][..k] == received[..k];
    var id := received[k].id;
    assert before == (before - {id})[id := before[id]];
  }

  /** The positions, below `k`, of the messages that have used up their retries. */
  function ExhaustedAmong(received: seq<Received>, k: nat): set<nat>
    requires k <= |received|
  {
    set i: nat | i < k && Exhausted(received[i])
  }

  lemma {:induction false} OneMoreExhausted(received: seq<Received>, k: nat)
    requires k < |received|
    ensures |ExhaustedAmong(received, k + 1)| == |ExhaustedAmong(received, k)| + if Exhausted(received[k]) then 1 else 0
  {
    var before, after := ExhaustedAmong(received, k), ExhaustedAmong(received, k + 1);
    assert after == if Exhausted(received[k]) then before + {k} else before;
  }

  lemma {:induction false} Bookkeeping(
      dlq: map<nat, Message>, received: seq<Received>, k: nat, before: map<nat, Message>)
    requires k < |received| && before == Remaining(dlq, received[..k]) && received[k].id in before
    requires CompletesAll(received[..k]) && !Aborts(received[k])
    ensures Remaining(dlq, received[..k + 1]) == if received[k].act == Ok then before - {received[k].id} else before
    ensures |before| == |Remaining(dlq, received[..k + 1])| + if received[k].act == Ok then 1 else 0
    ensures |ExhaustedAmong(received, k + 1)| == |ExhaustedAmong(received, k)| + if Exhausted(received[k]) then 1 else 0
    ensures CompletesAll(received[..k + 1])
  {
    RemainingSnoc(dlq, received, k, before);
    OneMoreExhausted(received, k);
    assert received[..k + 1] == received[..k] + [received[k]];
  }

  /** The topic once every message with retries left, whose re-publication took effect, is appended with its count
      raised by one. */
  function Appended(topic: Topic, received: seq<Received>): Topic
    decreases |received|
  {
    if received == [] then topic else Appended(AppendedOne(topic, received[0]), received[1..])
  }

  function AppendedOne(topic: Topic, r: Received): Topic
  {
    if r.body.retryCount < 3 && r.act != Raised && r.p < |topic|
    then Put(topic, r.p, Message(r.body.event, r.body.retryCount + 1)) else topic
  }

  /** The dead letters once every message without retries left, whose put took effect, is filed. */
  function Filed(dead: set<Event>, received: seq<Received>): set<Event>
    decreases |received|
  {
    if received == [] then dead else Filed(FiledOne(dead, received[0]), received[1..])
  }

  function FiledOne(dead: set<Event>, r: Received): set<Event>
  {
    if r.body.retryCount >= 3 && r.act != Raised then dead + {r.body.event} else dead
  }

  /** The circuit after one message has been handled. */
  ghost function Handled(w: World, r: Received): World
  {
    var w' := if Exhausted(r) then Next(w, DeadLetter(r.id, r.act)) else Next(w, Republish(r.id, r.p, r.act));
    if r.act == Ok then Next(w', Delete(r.id, r.delete)) else w'
  }

  /** The circuit after an invocation. */
  ghost function Effect(w: World, received: seq<Received>): World
    decreases |received|
  {
    if received == [] then w
    else if Aborts(received[0]) then Handled(w, received[0])
    else Effect(Handled(w, received[0]), received[1..])
  }

  /** The received messages are those in the queue, each once. */
  ghost predicate InQueue(w: World, received: seq<Received>)
  {
    && (forall i :: 0 <= i < |received| ==>
          received[i].id in w.c.dlq && w.c.dlq[received[i].id] == received[i].body && received[i].p < |w.topic|)
    && (forall i, j :: 0 <= i < j < |received| ==> received[i].id != received[j].id)
  }

  lemma {:induction false} HandledIs(w: World, r: Received)
    requires r.id in w.c.dlq && w.c.dlq[r.id] == r.body && r.p < |w.topic|
    ensures Handled(w, r).topic == AppendedOne(w.topic, r) && Handled(w, r).dead == FiledOne(w.dead, r)
    ensures forall id :: id in w.c.dlq && id != r.id ==>
        id in Handled(w, r).c.dlq && Handled(w, r).c.dlq[id] == w.c.dlq[id]
  {
  }

  /** What a completed invocation does to topic and dead letters. */
  lemma {:induction false} CompletedEffect(w: World, received: seq<Received>)
    requires InQueue(w, received) && CompletesAll(received)
    ensures Effect(w, received).topic == Appended(w.topic, received) &&
        Effect(w, received).dead == Filed(w.dead, received)
    decreases |received|
  {
    if received != [] {
      var r, rest := received[0], received[1..];
      var w1 := Handled(w, r);
      HandledIs(w, r);
      forall i | 0 <= i < |rest|
        ensures rest[i].id in w1.c.dlq && w1.c.dlq[rest[i].id] == rest[i].body && !Aborts(rest[i])
      {
        assert rest[i] == received[i + 1];
      }
      CompletedEffect(w1, rest);
    }
  }

  lemma {:induction false} HandledIsRun(w: World, r: Received)
    ensures Handled(w, r) == Fold(Next, w, MovesFor(r))
  {
    var act := if Exhausted(r) then DeadLetter(r.id, r.act) else Republish(r.id, r.p, r.act);
    FoldSnoc(Next, w, [], act);
    assert [] + [act] == [act];
    FoldSnoc(Next, w, [act], Delete(r.id, r.delete));
  }

  /** An invocation is a run of the circuit. */
  lemma {:induction false} EffectIsRun(w: World, received: seq<Received>)
    ensures Effect(w, received) == Fold(Next, w, Moves(received))
    decreases |received|
  {
    if received != [] {
      var r := received[0];
      var rest := if Aborts(r) then [] else Moves(received[1..]);
      HandledIsRun(w, r);
      FoldConcat(Next, w, MovesFor(r), rest);
      if !Aborts(r) {
        EffectIsRun(Handled(w, r), received[1..]);
      }
    }
  }

  class Queue {
    var topic: Topic
    var dlq: map<nat, Message>
    var dead: set<Event>
    ghost var settled: set<nat>

    constructor (topic: Topic, dlq: map<nat, Message>)
      ensures this.topic == topic && this.dlq == dlq && dead == {} && settled == {}
    {
      this.topic, this.dlq, dead, settled := topic, dlq, {}, {};
    }

    ghost function Value(c: State): World
      reads this
    {
      World(topic, c.(dlq := dlq), settled, dead)
    }

    /** What is done for one message; false when the invocation ends with an exception. */
    method HandleOne(r: Received, ghost c: State) returns (goOn: bool)
      requires r.id in dlq && dlq[r.id] == r.body && r.p < |topic|
      modifies this
      ensures Value(c) == Handled(old(Value(c)), r)
      ensures goOn <==> !Aborts(r)
      ensures goOn <==> if r.act == Ok then r.delete == Ok else r.body.retryCount < 3
      ensures |topic| == |old(topic)|
      ensures r.body.retryCount < 3 ==>
              && dead == old(dead)
              && topic == (if r.act == Raised then old(topic)
                           else Put(old(topic), r.p, Message(r.body.event, r.body.retryCount + 1)))
      ensures r.body.retryCount >= 3 ==>
              topic == old(topic) && dead == (if r.act == Raised then old(dead) else old(dead) + {r.body.event})
      ensures dlq == if r.act == Ok && r.delete != Raised then old(dlq) - {r.id} else old(dlq)
    {
      if r.body.retryCount >= MAX_RETRIES {
        if r.act != Raised {
          dead := dead + {r.body.event};
        }
        if r.act != Ok {
          return false;
        }
      } else {
        if r.act != Raised {
          topic := Put(topic, r.p, Message(r.body.event, r.body.retryCount + 1));
        }
        if r.act != Ok {
          return true;
        }
      }
      settled := settled + {r.id};
      if r.delete != Raised {
        dlq := dlq - {r.id};
      }
      return r.delete == Ok;
    }

    /** The loop over the received messages, with the effect of the circuit's steps. */
    method Loop(received: seq<Received>, ghost c: State) returns (completed: bool, retried: nat, deadLettered: nat)
      requires InQueue(Value(c), received)
      modifies this
      ensures Value(c) == Effect(old(Value(c)), received)
      ensures completed <==> CompletesAll(received)
      ensures completed ==> dlq == Remaining(old(dlq), received) && |dlq| + retried + deadLettered == |old(dlq)|
      ensures completed ==> deadLettered == |ExhaustedAmong(received, |received|)|
    {
      ghost var final := Effect(Value(c), received);
      retried, deadLettered := 0, 0;
      assert received[0..] == received;
      for k := 0 to |received|
        invariant |topic| == |old(topic)|
        invariant Effect(Value(c), received[k..]) == final
        invariant CompletesAll(received[..k])
        invariant dlq == Remaining(old(dlq), received[..k]) && |dlq| + retried + deadLettered == |old(dlq)|
        invariant deadLettered == |ExhaustedAmong(received, k)|
      {
        var r := received[k];
        StillThere(old(dlq), received, k);
        ghost var before, waiting := Value(c), dlq;
        var goOn := HandleOne(r, c);
        FirstHandled(before, Value(c), received, k);
        if !goOn {
          return false, retried, deadLettered;
        }
        Bookkeeping(old(dlq), received, k, waiting);
        if Exhausted(r) {
          deadLettered := deadLettered + 1;
        } else if r.act == Ok {
          retried := retried + 1;
        }
      }
      assert received[..|received|] == received && received[|received|..] == [];
      return true, retried, deadLettered;
    }

    /** The handler. An invocation completes exactly when no put and no delete raises. It then has re-published, with
        the count raised by one, the messages that had been retried less than three times, and filed the others as dead
        letters; it leaves in the queue the messages it could not re-publish and those it did not receive; and every
        message that has left the queue is counted once. */
    method Handle(received: seq<Received>, ghost c: State) returns (completed: bool, retried: nat, deadLettered: nat)
      requires InQueue(Value(c), received)
      modifies this
      ensures Value(c) == Effect(old(Value(c)), received)
      ensures completed <==>
              forall i :: 0 <= i < |received| ==>
                if received[i].act == Ok then received[i].delete == Ok else received[i].body.retryCount < 3
      ensures completed ==> topic == Appended(old(topic), received) && dead == Filed(old(dead), received)
      ensures completed ==> dlq == Remaining(old(dlq), received) && |dlq| + retried + deadLettered == |old(dlq)|
      ensures completed ==> deadLettered == |set i: nat | i < |received| && received[i].body.retryCount >= 3|
    {
      ghost var start := Value(c);
      completed, retried, deadLettered := Loop(received, c);
      if completed {
        CompletedEffect(start, received);
        assert ExhaustedAmong(received, |received|) == set i: nat | i < |received| && received[i].body.retryCount >= 3;
      }
    }
  }

  lemma {:induction false} FirstHandled(w: World, w': World, received: seq<Received>, k: nat)
    requires k < |received| && w' == Handled(w, received[k])
    ensures Effect(w, received[k..]) == if Aborts(received[k]) then w' else Effect(w', received[k + 1..])
  {
    assert received[k..][1..] == received[k + 1..];
  }

  /** An invocation loses no event, however its calls end. */
  lemma {:induction false} InvocationLosesNothing(w: World, received: seq<Received>)
    requires NothingLost(w)
    ensures NothingLost(Effect(w, received))
  {
    EffectIsRun(w, received);
    MovesSendNothing(received);
    MovesLoseNothing(w, Moves(received));
  }

  lemma {:induction false} MovesSendNothing(received: seq<Received>)
    ensures forall i :: 0 <= i < |Moves(received)| ==> SendsArrive(Moves(received)[i])
  {
    if received != [] {
      MovesSendNothing(received[1..]);
    }
  }

  lemma {:induction false} MovesLoseNothing(w: World, moves: seq<Move>)
    requires NothingLost(w) && forall i :: 0 <= i < |moves| ==> SendsArrive(moves[i])
    ensures NothingLost(Fold(Next, w, moves))
  {
    if moves != [] {
      MovesLoseNothing(w, moves[..|moves| - 1]);
      NextLosesNothing(Fold(Next, w, moves[..|moves| - 1]), moves[|moves| - 1]);
    }
  }
}
